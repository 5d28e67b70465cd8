# Sequence annotation pipeline, modelled in Dafny

This project models the core of a Benchling app. The app annotates newly registered antibody DNA sequences with IgBLAST results. `SequenceAnnotationBulkFlow.execute` runs nine steps in a fixed order. Each step takes the records the previous step let through and sorts each one into `succeeded`, `warning` or `failed`:

1. validate the registration events against the DNA sequence and DNA feature schemas;
2. fetch the DNA sequences;
3. look up each sequence's species, either on the feature itself or on its source clone;
4. run IgBLAST twice per run of equal species, once with IMGT and once with Kabat numbering;
5. exclude sequences with a stop codon, marking them on Benchling;
6. create the AA sequence, with CDR/FR fields and annotations found by region detection;
7. write the translation back to the DNA sequence;
8. create the germline alignment sequences;
9. create one nucleotide template alignment per sequence.

Once the loop ends, the step reports are merged and the session status is decided from the counts.

The model has one module per source file:

| module | file | models |
|---|---|---|
| `Wrappers`, `Values`, `Dicts` | — | `Option`, `Result` (a raised exception is `Err` with the text `str(e)`), Python values, and insertion-ordered dicts |
| `Models` | — | the Benchling and IgBLAST records the core reads; the external services are function-valued fields of the `Services` datatype |
| `Utils` | `flows/utils.py` | `sanitize_sequence` |
| `BenchlingFields` | `services/domain/benchling_fields.py` | field keys and computed fields per schema type |
| `AaRegions` | `flows/domain/aa_regions.py` | region detection and `AaRegion.create` |
| `FlowBase` | `flows/base.py` | `StepResults` and `RetryableStepResults`, as classes with seq fields that the `add_*` methods append to |
| `AsyncSteps` | `flows/steps/base.py` | bulk-task error parsing, `process` and the retry recursion of `execute` |
| `SequenceAnnotation` | `flows/domain/sequence_annotation.py` | the provenance chain, as one recursive `Item` datatype, and `merge` |
| `ValidateEvents` … `CreateNucleotideTemplateAlignment` | `flows/steps/*.py` | the nine steps, each as a specification function plus an `Execute` method proved equal to it |
| `IgBlastToBenchling` | `flows/mappers/igblast_to_benchling.py` | payload construction for AA sequences and DNA bulk create/update |
| `SequenceAnnotationFlow` | `flows/sequence_annotation.py` | the step loop, the progress and completion messages, and the session status |

Each step follows the same pattern:

- a specification function classifies every record into an outcome;
- lemmas prove that every input record is accounted for exactly once, in order, and that the records let through are of the class the next step takes;
- an `Execute` method loops as the source does and ensures that its results equal the specification.

Properties are also proved for the flow as a whole:

- every event ends up exactly once as succeeded, warned or failed;
- the merged `succeeded` list is the last step's, and is non-empty only when all nine steps ran;
- the status table is the one the source states.

Where the mapper is concerned, the model proves:

- each CDR and FR value is stored under its own distinct field name and annotated at an occurrence in the amino acids;
- annotations come in a fixed order;
- payload construction raises only the exceptions the data can cause.

The paths in the table below are relative to the repository root. The files under `test/sequence/` that are verbatim copies of files under `test/sequence_annotation/` are covered by the same modules.

## Model

| member | source | states |
|---|---|---|
| Utils.SanitizeSequence | test/sequence_annotation/flows/utils.py:4-5 | a result exactly for a non-empty str; the result has no '-' and is shorter by the number of dashes |
| Utils.SanitizeSplits | test/sequence_annotation/flows/utils.py:5 | sanitizing a concatenation is the concatenation of the dash-free parts, so the other characters keep their order |
| Utils.SanitizeKeepsOtherCharacters | test/sequence_annotation/flows/utils.py:5 | a character other than '-' survives at its place between the sanitized prefix and suffix |
| Utils.SanitizeIdempotent | test/sequence_annotation/flows/utils.py:5 | sanitizing a non-empty result again returns it unchanged |
| Utils.SanitizeAllDashes | test/sequence_annotation/flows/utils.py:5 | `'---'` gives `''` and `''` gives None, so the function is not idempotent there |
| BenchlingFields.DnaSchemaType.ComputedFields | test/sequence_annotation/services/domain/benchling_fields.py:9-15 | Sequence computes `Species` and `Translation AA - Residues` in that order, Feature only `Translation AA - Residues` |
| BenchlingFields.WrittenFieldsAreNotComputed | test/sequence_annotation/services/domain/benchling_fields.py:18-44 | neither schema lists `Translation AA` or `Comment` among its computed fields |
| BenchlingFields.KeysAreDistinct | test/sequence_annotation/services/domain/benchling_fields.py:18-51 | within each key enum, equal key strings mean the same member |
| BenchlingFields.DnaSequenceFieldKey.Key | test/sequence_annotation/services/domain/benchling_fields.py:18-25 | the field name each DNA sequence key stands for, as the enum's string values give them; `KeysAreDistinct` proves no two keys share a name |
| BenchlingFields.DnaFeatureFieldKey.Key | test/sequence_annotation/services/domain/benchling_fields.py:32-40 | the field name each DNA feature key stands for; `KeysAreDistinct` proves no two keys share a name |
| BenchlingFields.AaSequenceFieldKey.Key | test/sequence_annotation/services/domain/benchling_fields.py:47-51 | the field name each AA sequence key stands for; `KeysAreDistinct` proves no two keys share a name |
| BenchlingFields.DnaSchemaType.TranslationAaKey | test/sequence_annotation/flows/steps/fill_translations.py:44-47 | the "Translation AA" key of the entity's own schema, which the translation-filling step writes; `WrittenFieldsAreNotComputed` proves it is never a computed field |
| BenchlingFields.DnaSchemaType.CommentKey | test/sequence_annotation/flows/steps/exclude_stop_codons.py:63-66 | the "Comment" key of the entity's own schema, which the stop-codon step writes; `WrittenFieldsAreNotComputed` proves it is never a computed field |
| AaRegions.Create | test/sequence_annotation/flows/domain/aa_regions.py:43-47 | the start is kept; an end equal to the sequence length becomes 0, any other end is kept |
| AaRegions.StringFragmentsAppend | test/sequence_annotation/flows/domain/aa_regions.py:72 | filtering to str values distributes over concatenation of the keyword arguments |
| AaRegions.StringFragmentsSingle | test/sequence_annotation/flows/domain/aa_regions.py:72 | a str-valued argument is kept with its text; any other value is dropped |
| AaRegions.StringFragmentsMembers | test/sequence_annotation/flows/domain/aa_regions.py:72 | every kept fragment is a str-valued argument, and every str-valued argument is kept |
| AaRegions.StringFragmentIndex | test/sequence_annotation/flows/domain/aa_regions.py:72-87 | each str-valued argument has a position among the kept fragments holding its name and text |
| AaRegions.StringFragmentsDistinct | test/sequence_annotation/flows/domain/aa_regions.py:72-87 | distinct argument names stay distinct after filtering |
| AaRegions.RightmostOccurrence | test/sequence_annotation/flows/domain/aa_regions.py:79 | the result is an occurrence ending by the limit and no such occurrence lies further right; it is None only when there is none |
| AaRegions.LatestPlacement | test/sequence_annotation/flows/domain/aa_regions.py:74-79 | a returned placement puts every fragment literally, in order and without overlap, ending by the limit |
| AaRegions.LatestPlacementIsMaximal | test/sequence_annotation/flows/domain/aa_regions.py:74-79 | whenever any in-order placement exists the latest one exists and lies componentwise at or after it |
| AaRegions.ComponentwiseIsLex | test/sequence_annotation/flows/domain/aa_regions.py:79 | a componentwise upper bound is a lexicographic upper bound |
| AaRegions.LatestPlacementIsRegexMatch | test/sequence_annotation/flows/domain/aa_regions.py:74-79 | the latest placement is the lexicographically largest placement, which is the one greedy .* backtracking returns |
| AaRegions.NoPlacement | test/sequence_annotation/flows/domain/aa_regions.py:79-84 | when the latest placement does not exist no placement of the fragments exists |
| AaRegions.PlacementExists | test/sequence_annotation/flows/domain/aa_regions.py:79 | a placement witnesses that the search can match |
| AaRegions.Texts | test/sequence_annotation/flows/domain/aa_regions.py:75 | the pattern's groups are the kept values in order |
| AaRegions.Starts | test/sequence_annotation/flows/domain/aa_regions.py:90 | one start per detected region, in order |
| AaRegions.Regions | test/sequence_annotation/flows/domain/aa_regions.py:87-92 | one region per kept fragment under its name and in its order, starting at its placement and spanning its length, with the end-equals-length rule applied |
| AaRegions.RegionsDescribeMatch | test/sequence_annotation/flows/domain/aa_regions.py:86-92 | the regions built from the regex match describe that match |
| AaRegions.Detect | test/sequence_annotation/flows/domain/aa_regions.py:55-92 | success exactly when an in-order non-overlapping placement of the str fragments exists; failure carries the parse error; on success the regions describe the regex match |
| AaRegions.DetectWithoutFragments | test/sequence_annotation/flows/domain/aa_regions.py:71-92 | with no str-valued argument nothing is raised and the result is empty |
| AaRegions.NoStringFragments | test/sequence_annotation/flows/domain/aa_regions.py:72 | with no str-valued argument no fragment is kept |
| AaRegions.DetectSingle | test/sequence_annotation/flows/domain/aa_regions.py:55-92 | a single fragment is placed at its rightmost occurrence |
| AaRegions.DetectExampleInside | test/sequence_annotation/flows/domain/aa_regions.py:43-92 | "CDE" in "ABCDEFGHIJ" is the region [2, 5) |
| AaRegions.DetectExampleAtEnd | test/sequence_annotation/flows/domain/aa_regions.py:43-92 | "HIJ" in "ABCDEFGHIJ" ends the sequence, so its end is stored as 0 |
| AaRegions.DetectExampleOutOfOrder | test/sequence_annotation/flows/domain/aa_regions.py:79-84 | fragments occurring in the reverse order raise instead of being reordered |
| AaRegions.DescribedRegion | test/sequence_annotation/flows/domain/aa_regions.py:87-92 | in regions describing a match each fragment's name leads to its own region, which starts at an occurrence of its text |
| AaRegions.DetectFindsEachFragment | test/sequence_annotation/flows/domain/aa_regions.py:55-92 | after a successful search every str-valued argument has a region starting at an occurrence of its text and spanning its length |
| AaRegions.DetectSkipsOthers | test/sequence_annotation/flows/domain/aa_regions.py:71-92 | an argument that is not a str has no region |
| AaRegions.StringFragments | test/sequence_annotation/flows/domain/aa_regions.py:72 | the `non_empty_regions` filter: the `(name, text)` of every str-valued keyword argument, in the caller's order, and never more entries than arguments; `StringFragmentsMembers` proves both directions of membership and `StringFragmentsAppend` that it distributes over concatenation |
| AaRegions.Region | test/sequence_annotation/flows/mappers/igblast_to_benchling.py:100 | `regions.get(name)`: the region detected under that name, or None when detection gave none; `DetectFindsEachFragment` proves every str fragment has one and `DetectSkipsOthers` that a non-str argument gets none |
| AsyncSteps.HasAsyncTaskErrors | test/sequence_annotation/flows/steps/base.py:60-64 | an absent or None errors value counts as no error; a list or dict counts exactly when it is non-empty |
| AsyncSteps.Groups | test/sequence_annotation/flows/steps/base.py:70 | the runs of consecutive entries sharing an index concatenate back to the entries, and neighbouring runs have different indices |
| AsyncSteps.PresentMessages | test/sequence_annotation/flows/steps/base.py:69 | only entries that carry a message contribute one, so there are at most as many messages as entries |
| AsyncSteps.GroupMessages | test/sequence_annotation/flows/steps/base.py:68-71 | one pair per run: the run's index and its messages joined by line breaks |
| AsyncSteps.ErrorMessageByIndex | test/sequence_annotation/flows/steps/base.py:66-75 | a list or dict of errors parses and any other shape raises the parse error; the parsed dict has distinct keys |
| AsyncSteps.DictErrorsKept | test/sequence_annotation/flows/steps/base.py:72-73 | a dict of errors is returned as it is |
| AsyncSteps.Position | test/sequence_annotation/flows/steps/base.py:92 | a key reads a position only if it is an integer below the length; without negative indexing, exactly the in-range integers read their own position |
| AsyncSteps.FailIndexed | test/sequence_annotation/flows/steps/base.py:91-92 | on success one failure per error entry, in dict order, pairing the indexed input with the entry's message |
| AsyncSteps.FailIndexedStopsAtError | test/sequence_annotation/flows/steps/base.py:91-92 | once an entry raises, later entries are not reached and the same error surfaces |
| AsyncSteps.FailIndexedSingle | test/sequence_annotation/flows/steps/base.py:91-92 | a one-entry error dict fails the indexed item, or raises what indexing raises |
| AsyncSteps.RetryItems | test/sequence_annotation/flows/steps/base.py:95 | the retry list is no longer than the inputs |
| AsyncSteps.AllFailed | test/sequence_annotation/flows/steps/base.py:87-88 | every input fails, in order, with the bulk task's message |
| AsyncSteps.ProcessWith | test/sequence_annotation/flows/steps/base.py:77-104 | without task errors every input succeeds and nothing fails or is retried |
| AsyncSteps.ProcessAsWritten | test/sequence_annotation/flows/steps/base.py:77-104 | Python indexing of the inputs, negative indices included; the retry list is no longer than the inputs |
| AsyncSteps.NegativeIndexIsRetried | test/sequence_annotation/flows/steps/base.py:91-99 | an error at index -1 fails the only item and still keeps it for retry |
| AsyncSteps.Process | test/sequence_annotation/flows/steps/base.py:77-104 | `process` with error indices restricted to 0..n-1 (a negative index raises, unlike the code as written): without errors every input succeeds; otherwise every input is succeeded, failed or retried exactly once, and when something fails nothing succeeds and the retry list is strictly shorter |
| AsyncSteps.ProcessAccounts | test/sequence_annotation/flows/steps/base.py:85-99 | succeeded, failed and retried items together number the inputs |
| AsyncSteps.KeyPositionsCount | test/sequence_annotation/flows/steps/base.py:95 | distinct integer keys give as many positions as keys |
| AsyncSteps.RetryIgnoresOutside | test/sequence_annotation/flows/steps/base.py:95 | only positions within the inputs matter to the retry filter |
| AsyncSteps.RetryCount | test/sequence_annotation/flows/steps/base.py:95 | removing a set of in-range positions leaves the inputs minus that many |
| AsyncSteps.RetryAccounts | test/sequence_annotation/flows/steps/base.py:90-99 | the indexed failures and the retry list together number the inputs |
| AsyncSteps.ProcessSentinel | test/sequence_annotation/flows/steps/base.py:84-88 | the index/message sentinel fails every input with the bulk task's message and retries none |
| AsyncSteps.NegativeIndexIsRejected | test/sequence_annotation/flows/steps/base.py:91-92 | with indices restricted to 0..n-1, an error at index -1 raises instead of being retried |
| AsyncSteps.AddAllSucceeded | test/sequence_annotation/flows/steps/base.py:101-102 | appends the items to the successes and changes nothing else |
| AsyncSteps.AddAllFailed | test/sequence_annotation/flows/steps/base.py:87-88 | appends one failure per item with the message and changes nothing else |
| AsyncSteps.AddIndexedFailures | test/sequence_annotation/flows/steps/base.py:91-92 | records exactly the indexed failures, or reports the error indexing raises |
| AsyncSteps.RetryList | test/sequence_annotation/flows/steps/base.py:94-95 | returns the inputs whose positions are not error keys |
| AsyncSteps.AddAllToRetry | test/sequence_annotation/flows/steps/base.py:97-99 | appends the items to the retry list |
| AsyncSteps.ProcessTask | test/sequence_annotation/flows/steps/base.py:77-104 | returns fresh results holding exactly what the reconciliation function computes, or its error |
| AsyncSteps.ExecuteSpec | test/sequence_annotation/flows/steps/base.py:32-53 | `execute` built on the restricted `Process`: the report carries the step's name and no warnings; an empty batch returns empty results without a task |
| AsyncSteps.BatchesShrink | test/sequence_annotation/flows/steps/base.py:35-45 | the first batch is the input, every batch is non-empty and each retry batch is strictly smaller, so the recursion ends |
| AsyncSteps.ExecuteAccounts | test/sequence_annotation/flows/steps/base.py:32-53 | when each success yields one output, every input ends up succeeded or failed exactly once, retries included |
| AsyncSteps.RetryItemsMembers | test/sequence_annotation/flows/steps/base.py:95 | every retried item is one of the inputs |
| AsyncSteps.ProcessMembers | test/sequence_annotation/flows/steps/base.py:77-104 | either all inputs succeed or none does; every failure and every retried item comes from the inputs |
| AsyncSteps.ExecuteMembers | test/sequence_annotation/flows/steps/base.py:32-53 | every failure comes from the inputs, and the successes are what get_succeeded_items returns for a batch drawn from the inputs |
| AsyncSteps.BatchesMembers | test/sequence_annotation/flows/steps/base.py:45 | every submitted batch is drawn from the inputs |
| AsyncSteps.FirstRoundFailuresFirst | test/sequence_annotation/flows/steps/base.py:42-51 | the first round's failures lead the failure list; without failures the successes are get_succeeded_items of the whole batch |
| AsyncSteps.Execute | test/sequence_annotation/flows/steps/base.py:32-53 | returns results whose report is the specification's, or the same error, and submits the batches the specification lists |
| AsyncSteps.Batches | test/sequence_annotation/flows/steps/base.py:35-45 | the batches `execute` passes to `get_task`, in order: the items, then the retry batches while a round fails something, and nothing for an empty input; `BatchesShrink` and `BatchesMembers` prove at most `len(items)` strictly shrinking batches, each drawn from the items |
| AsyncSteps.IsSentinel | test/sequence_annotation/flows/steps/base.py:85 | the errors dict whose `'index'` entry is `'message'`, which fails the whole batch with the bulk task's message; `ProcessSentinel` proves every input then fails and none is retried |
| AsyncSteps.KeyPositions | test/sequence_annotation/flows/steps/base.py:95 | the integer keys of the error dict, the only keys the `enumerate` filter can match; `KeyPositionsCount` and `RetryCount` prove how many inputs the filter removes |
| AsyncSteps.IndexTypeError | test/sequence_annotation/flows/steps/base.py:92 | the text of the TypeError `inputs[index]` raises for a str or None key; `Position` returns it for every non-integer key, and `FailIndexed` raises it at the first such key |
| FlowBase.StepFailedResult.Str | test/sequence_annotation/flows/base.py:20-21 | the string form of a failure is its error message alone |
| FlowBase.EmptyReport | test/sequence_annotation/flows/base.py:25-28 | fresh results carry the name and hold nothing |
| FlowBase.Record | test/sequence_annotation/flows/base.py:30-37 | one add_* call keeps the name and adds exactly one entry |
| FlowBase.Successes | test/sequence_annotation/flows/base.py:30-31 | at most one success per outcome |
| FlowBase.Warnings | test/sequence_annotation/flows/base.py:33-34 | at most one warning per outcome |
| FlowBase.Failures | test/sequence_annotation/flows/base.py:36-37 | at most one failure per outcome |
| FlowBase.FiltersAppendOne | test/sequence_annotation/flows/base.py:30-37 | one more outcome extends exactly the list its add_* call appends to |
| FlowBase.RecordAllName | test/sequence_annotation/flows/base.py:25-37 | add_* calls never change the results' name |
| FlowBase.RecordAllSucceeded | test/sequence_annotation/flows/base.py:30-31 | the succeeded list grows by exactly the successful results, in call order |
| FlowBase.RecordAllWarning | test/sequence_annotation/flows/base.py:33-34 | the warning list grows by exactly the warned outcomes, in call order |
| FlowBase.RecordAllFailed | test/sequence_annotation/flows/base.py:36-37 | the failed list grows by exactly the failed outcomes, in call order |
| FlowBase.RecordAllIsFilter | test/sequence_annotation/flows/base.py:25-37 | recording outcomes in order appends the three filters of the outcomes to the three lists |
| FlowBase.RouteIsFilter | test/sequence_annotation/flows/base.py:25-37 | fresh results fed the outcomes hold the three filters of the outcomes |
| FlowBase.FiltersPartition | test/sequence_annotation/flows/base.py:25-37 | every outcome lands in exactly one list |
| FlowBase.RouteAccounts | test/sequence_annotation/flows/base.py:25-37 | a step reports exactly one entry per routed item |
| FlowBase.SuccessesMembers | test/sequence_annotation/flows/base.py:30-31 | a result is succeeded exactly when some outcome succeeded with it |
| FlowBase.FailuresMembers | test/sequence_annotation/flows/base.py:36-37 | a failure is recorded exactly when some outcome failed with that payload and message |
| FlowBase.SucceededIn | test/sequence_annotation/flows/base.py:30-31 | a successful outcome's result is among the succeeded results |
| FlowBase.FailedIn | test/sequence_annotation/flows/base.py:36-37 | a failed outcome is among the failures with its message |
| FlowBase.WarningsMembers | test/sequence_annotation/flows/base.py:33-34 | a warning is recorded exactly when some outcome warned with that payload and message |
| FlowBase.NoWarnings | test/sequence_annotation/flows/base.py:33-34 | a step that never warns reports no warnings |
| FlowBase.SucceedOrFail | test/sequence_annotation/flows/base.py:25-37 | a step that succeeds or fails each input keeps its name, warns nothing, accounts for every input once and fails only inputs |
| FlowBase.FailuresFromInputs | test/sequence_annotation/flows/base.py:36-37 | failures that fail the input at their own position report only inputs |
| FlowBase.AllSucceeded | test/sequence_annotation/flows/base.py:30-31 | when every outcome succeeds the results are theirs in order and nothing warns or fails |
| FlowBase.RouteAppendOne | test/sequence_annotation/flows/base.py:30-37 | routing one more outcome is one more add_* call |
| FlowBase.RoutePrefixStep | test/sequence_annotation/flows/base.py:30-37 | routing one more element of a prefix is one more add_* call |
| FlowBase.StepResults.constructor | test/sequence_annotation/flows/base.py:24-28 | new results have the name and three empty lists |
| FlowBase.StepResults.AddSucceeded | test/sequence_annotation/flows/base.py:30-31 | appends the result to succeeded; the other lists are unchanged |
| FlowBase.StepResults.AddWarning | test/sequence_annotation/flows/base.py:33-34 | appends the payload and message to warning; the other lists are unchanged |
| FlowBase.StepResults.AddFailed | test/sequence_annotation/flows/base.py:36-37 | appends the payload and message to failed; the other lists are unchanged |
| FlowBase.StepResults.Add | test/sequence_annotation/flows/base.py:30-37 | the add_* call for an outcome changes the results as recording that outcome does |
| FlowBase.StepResults.ExtendSucceeded | test/sequence_annotation/flows/base.py:26 | extends succeeded by the given results; the other lists are unchanged |
| FlowBase.StepResults.ExtendFailed | test/sequence_annotation/flows/base.py:28 | extends failed by the given failures; the other lists are unchanged |
| FlowBase.RetryableStepResults.constructor | test/sequence_annotation/flows/base.py:40-42 | new retryable results are empty, with an empty retry list |
| FlowBase.RetryableStepResults.AddToRetry | test/sequence_annotation/flows/base.py:42 | appends the item to the retry list |
| FlowBase.RecordAll | test/sequence_annotation/flows/base.py:30-39 | the results after one add call per outcome in order; `RecordAllIsFilter` proves each list grows by exactly its own outcomes, in order |
| FlowBase.Route | test/sequence_annotation/flows/base.py:25-39 | a fresh results object after one add call per outcome; `RouteIsFilter`, `RouteAccounts` and `FiltersPartition` prove its lists are the three filters and every outcome lands in exactly one of them |
| SequenceAnnotation.Item.Ancestor | test/sequence_annotation/flows/domain/sequence_annotation.py:24-203 | every well-formed record reaches, through previous, a well-formed record of each earlier stage |
| SequenceAnnotation.MembersAtStage | test/sequence_annotation/flows/domain/sequence_annotation.py:24-203 | a list of well-formed records of one class is a valid input of the step that takes that class |
| SequenceAnnotation.EventIsRoot | test/sequence_annotation/flows/domain/sequence_annotation.py:29-31 | the event property of every record is the event of the root validation result |
| SequenceAnnotation.DnaSchemaTypeIsRoot | test/sequence_annotation/flows/domain/sequence_annotation.py:33-35 | dna_schema_type, where a record defines it, is the one the validation step decided |
| SequenceAnnotation.DnaSequenceIsFetched | test/sequence_annotation/flows/domain/sequence_annotation.py:53-55 | dna_sequence on every later record is the one GetDnaSequenceResult fetched |
| SequenceAnnotation.AnalysisIsBlasted | test/sequence_annotation/flows/domain/sequence_annotation.py:118-120 | analysis on every later record that defines it is the one IgBlastExecutionResult holds |
| SequenceAnnotation.AaSequenceIsCreated | test/sequence_annotation/flows/domain/sequence_annotation.py:146-148 | aa_sequence on every later record is the one CreateAaSequenceResult holds |
| SequenceAnnotation.Prefixed | test/sequence_annotation/flows/domain/sequence_annotation.py:214-218 | one result per input result, same payload, message prefixed by the step's class name and a colon |
| SequenceAnnotation.MergeCounts | test/sequence_annotation/flows/domain/sequence_annotation.py:212-218 | the merged warning and failure counts are the sums over the steps |
| SequenceAnnotation.MergeAppendWarnings | test/sequence_annotation/flows/domain/sequence_annotation.py:213-215 | merging steps a then b concatenates their prefixed warnings, in step order |
| SequenceAnnotation.MergeAppendFailures | test/sequence_annotation/flows/domain/sequence_annotation.py:213-218 | merging steps a then b concatenates their prefixed failures, in step order |
| SequenceAnnotation.MergeOne | test/sequence_annotation/flows/domain/sequence_annotation.py:209-224 | a single step's merge keeps its succeeded results and prefixes each warning and failure with its name |
| SequenceAnnotation.AddPrefixedWarnings | test/sequence_annotation/flows/domain/sequence_annotation.py:214-215 | appends the prefixed warnings; succeeded and failed are unchanged |
| SequenceAnnotation.AddPrefixedFailures | test/sequence_annotation/flows/domain/sequence_annotation.py:217-218 | appends the prefixed failures; succeeded and warning are unchanged |
| SequenceAnnotation.Merge | test/sequence_annotation/flows/domain/sequence_annotation.py:208-224 | returns fresh results holding every step's prefixed warnings and failures in step order and the last step's succeeded results |
| SequenceAnnotation.Item.GetEvent | test/sequence_annotation/flows/domain/sequence_annotation.py:29-191 | the `event` property every record class defines by delegating to `previous`, down to the validation result's field; `EventIsRoot` proves it is the root record's event |
| SequenceAnnotation.Item.GetDnaSchemaType | test/sequence_annotation/flows/domain/sequence_annotation.py:33-117 | the `dna_schema_type` property, defined by the classes up to `CreateAaSequenceResult` only, delegating to the validation result; `DnaSchemaTypeIsRoot` proves where it comes from |
| SequenceAnnotation.Item.GetDnaSequence | test/sequence_annotation/flows/domain/sequence_annotation.py:53-195 | the `dna_sequence` property, defined from `GetSpeciesResult` on by delegating to `GetDnaSequenceResult`'s field; `DnaSequenceIsFetched` proves it is the fetched sequence |
| SequenceAnnotation.Item.GetAnalysis | test/sequence_annotation/flows/domain/sequence_annotation.py:118-172 | the `analysis` property of `CreateAaSequenceResult` to `CreateGermlineAlignmentSequenceResult`, delegating to the IgBLAST result's field; `AnalysisIsBlasted` proves where it comes from |
| SequenceAnnotation.Item.GetAaSequence | test/sequence_annotation/flows/domain/sequence_annotation.py:146-199 | the `aa_sequence` property of the classes after `CreateAaSequenceResult`, delegating to its field; `AaSequenceIsCreated` proves where it comes from |
| SequenceAnnotation.AllWarnings | test/sequence_annotation/flows/domain/sequence_annotation.py:213-215 | the warnings of all steps in step order, each message prefixed by its step's name; `MergeAppendWarnings` proves it concatenates over the steps |
| SequenceAnnotation.AllFailures | test/sequence_annotation/flows/domain/sequence_annotation.py:213-218 | the failures of all steps in step order, each message prefixed by its step's name; `MergeAppendFailures` proves it concatenates over the steps |
| SequenceAnnotation.MergeSpec | test/sequence_annotation/flows/domain/sequence_annotation.py:208-224 | `merge`: the last step's succeeded list with every step's prefixed warnings and failures; `MergeCounts` and `MergeOne` prove its counts and the one-step case, and `Merge` computes it |
| Models.FieldValue | test/sequence_annotation/flows/steps/validate_events.py:45-46 | a missing field reads as None, a present one as its value |
| Models.FieldText | test/sequence_annotation/flows/steps/validate_events.py:48-49 | a missing field reads as None, a present one as its text value |
| ValidateEvents.SchemaType | test/sequence_annotation/flows/steps/validate_events.py:51-57 | Sequence exactly for the sequence schema id, Feature exactly for the feature schema id when it is not also the sequence one, None for any other schema |
| ValidateEvents.ErrorMessage | test/sequence_annotation/flows/steps/validate_events.py:59-78 | the unknown-schema, unsupported-type, missing-source-clone and unsupported-function messages, each in exactly the case the source raises it |
| ValidateEvents.ErrorMessageIffRejected | test/sequence_annotation/flows/steps/validate_events.py:59-78 | there is no error message exactly for a sequence of a supported type with a source clone or a feature of a supported function |
| ValidateEvents.Outcomes | test/sequence_annotation/flows/steps/validate_events.py:32-41 | one outcome per event, in event order |
| ValidateEvents.ValidateAccounts | test/sequence_annotation/flows/steps/validate_events.py:29-43 | the step's results carry its name, warn nothing, and report every event once |
| ValidateEvents.ClassifyIffAccepted | test/sequence_annotation/flows/steps/validate_events.py:32-41 | an event succeeds exactly when it is accepted, as a validation result with its schema type; otherwise it fails with its error message |
| ValidateEvents.ValidateSucceeded | test/sequence_annotation/flows/steps/validate_events.py:32-41 | every success is a root record of an accepted event with a known schema, and every accepted event succeeds |
| ValidateEvents.ValidateFailed | test/sequence_annotation/flows/steps/validate_events.py:32-41 | every failure is a rejected event with its error message, and every rejected event fails |
| ValidateEvents.Execute | test/sequence_annotation/flows/steps/validate_events.py:29-43 | returns fresh results equal to the specification's report |
| GetDnaSequences.EntityIds | test/sequence/flows/steps/get_dna_sequences.py:29 | the ids fetched are the entity ids, in item order |
| GetDnaSequences.Lookup | test/sequence/flows/steps/get_dna_sequences.py:35 | a lookup finds a sequence exactly when the id is a key |
| GetDnaSequences.Request | test/sequence/flows/steps/get_dna_sequences.py:26-30 | no bulk fetch is made exactly when there are no items |
| GetDnaSequences.Outcomes | test/sequence/flows/steps/get_dna_sequences.py:34-35 | one outcome per item, in item order |
| GetDnaSequences.GetDnaSequencesSpec | test/sequence/flows/steps/get_dna_sequences.py:23-37 | every item succeeds, in input order, as a well-formed record pointing to it; nothing is warned or failed |
| GetDnaSequences.GetDnaSequencesPairs | test/sequence/flows/steps/get_dna_sequences.py:29-35 | the sequence paired with an item is one fetched under its entity id, and there is none exactly when no fetched sequence has that id |
| GetDnaSequences.GetDnaSequencesLastWins | test/sequence/flows/steps/get_dna_sequences.py:32 | when the fetch returns an id more than once the later sequence is kept |
| GetDnaSequences.Execute | test/sequence/flows/steps/get_dna_sequences.py:23-37 | returns fresh results equal to the specification's report and makes the bulk fetch the specification names |
| ValidateEvents.Accepted | test/sequence_annotation/flows/steps/validate_events.py:51-78 | the events the step lets through, without the messages: a sequence-schema entity whose Type text is VL, VH or HCDR3 and whose Source: Clone value is truthy, or a feature-schema entity whose Function(s) text is one of them; `ErrorMessageIffRejected` proves it holds exactly when no error message is produced |
| ValidateEvents.Classify | test/sequence_annotation/flows/steps/validate_events.py:32-41 | one turn of the loop: the event is added as failed with its record and the error message when there is one, otherwise as succeeded; `ClassifyIffAccepted` proves it succeeds exactly for the accepted events |
| ValidateEvents.ValidateSpec | test/sequence_annotation/flows/steps/validate_events.py:29-43 | the results after one add call per event, in event order; `ValidateAccounts`, `ValidateSucceeded` and `ValidateFailed` prove the accounting and both directions of membership |
| GetDnaSequences.ById | test/sequence/flows/steps/get_dna_sequences.py:32 | the dict comprehension keyed by each fetched sequence's id, later sequences winning; `GetDnaSequencesLastWins` proves the later duplicate is the one an item is paired with |
| ValidateEvents.Supported | test/sequence_annotation/flows/steps/validate_events.py:64 | the negation of `not in SUPPORTED_TYPES`: a present field text that is listed; a missing field (None) is never supported; `ErrorMessageIffRejected` proves an event gets no message exactly when `Accepted` holds |
| GetSpecies.DnaId | test/sequence_annotation/flows/steps/get_species.py:36 | the item's DNA id exists exactly when a sequence was fetched, and is that sequence's id |
| GetSpecies.CloneValue | test/sequence_annotation/flows/steps/get_species.py:58 | the item's "Source: Clone" value is the field's value, None when absent |
| GetSpecies.FeatureSpecies | test/sequence_annotation/flows/steps/get_species.py:50-54 | the feature comprehension raises only the missing-id error |
| GetSpecies.CloneIds | test/sequence_annotation/flows/steps/get_species.py:57-61 | the clone comprehension raises only the missing-id or missing-value errors |
| GetSpecies.UniqueIds | test/sequence_annotation/flows/steps/get_species.py:64 | the set of clone values exists exactly when no value is a list, and holds exactly the values of the dict |
| GetSpecies.Overridden | test/sequence_annotation/flows/steps/get_species.py:76-80 | every DNA id of a sequence item takes its clone entity's species; feature entries whose id no sequence item shares are kept |
| GetSpecies.Request | test/sequence_annotation/flows/steps/get_species.py:30-31 | no fetch is made for no items |
| GetSpecies.Verdict | test/sequence_annotation/flows/steps/get_species.py:38-41 | an item succeeds exactly when its species is a supported one, wrapped with it; otherwise it fails with the not-supported message |
| GetSpecies.ClassifyAll | test/sequence_annotation/flows/steps/get_species.py:35-41 | one loop iteration per item, in order |
| GetSpecies.GetSpeciesSpec | test/sequence_annotation/flows/steps/get_species.py:27-43 | no items give empty results |
| GetSpecies.FeatureSpeciesErr | test/sequence_annotation/flows/steps/get_species.py:50-54 | the feature comprehension raises exactly when a feature item has no DNA sequence |
| GetSpecies.FeatureLastWins | test/sequence_annotation/flows/steps/get_species.py:50-54 | a feature item's entry is its own "Source Species" text unless a later feature item shares its id |
| GetSpecies.FeatureKeys | test/sequence_annotation/flows/steps/get_species.py:50-54 | every key of the feature comprehension is the DNA id of a feature item |
| GetSpecies.CloneIdsErr | test/sequence_annotation/flows/steps/get_species.py:57-61 | the clone comprehension raises exactly when a sequence item has no DNA sequence or no "Source: Clone" field |
| GetSpecies.CloneLastWins | test/sequence_annotation/flows/steps/get_species.py:57-61 | a sequence item's entry is its own clone value unless a later sequence item shares its id |
| GetSpecies.CloneKeys | test/sequence_annotation/flows/steps/get_species.py:57-61 | every entry of the clone comprehension is the clone value of a sequence item with that DNA id |
| GetSpecies.EntitySpeciesLastWins | test/sequence_annotation/flows/steps/get_species.py:71-78 | a clone id maps to the "Species" text of the last fetched entity with that id |
| GetSpecies.EntitySpeciesAbsent | test/sequence_annotation/flows/steps/get_species.py:77-78 | a clone id that is not a string or that no fetched entity has gives no species |
| GetSpecies.RequestOnlyForSequences | test/sequence_annotation/flows/steps/get_species.py:63-68 | the entity fetch is made only when some item is a DNA sequence, with the distinct clone values |
| GetSpecies.CloneHasEverySequence | test/sequence_annotation/flows/steps/get_species.py:57-61 | every sequence item's DNA id is a key of the clone comprehension |
| GetSpecies.RequestForEverySequence | test/sequence_annotation/flows/steps/get_species.py:63-68 | a sequence item makes the entity fetch happen unless a comprehension raises first |
| GetSpecies.OutcomeIsVerdict | test/sequence_annotation/flows/steps/get_species.py:33-41 | each item's outcome is the verdict on the species looked up under its DNA id |
| GetSpecies.GetSpeciesOfFeature | test/sequence_annotation/flows/steps/get_species.py:48-82 | a feature item whose id no sequence item and no later feature item shares is judged on its own "Source Species" text |
| GetSpecies.GetSpeciesOfSequence | test/sequence_annotation/flows/steps/get_species.py:48-82 | a sequence item whose id no later sequence item shares is judged on the species of the fetched entity its clone value names |
| GetSpecies.StepOutcomesJudged | test/sequence_annotation/flows/steps/get_species.py:35-41 | each outcome belongs to its own item: a supported species succeeds, anything else fails |
| GetSpecies.JudgedReport | test/sequence_annotation/flows/steps/get_species.py:35-41 | judged outcomes keep the name, warn nothing, and report each item once |
| GetSpecies.JudgedReportMembers | test/sequence_annotation/flows/steps/get_species.py:35-41 | each success wraps one of the items with a supported species; each failure is one of the items |
| GetSpecies.GetSpeciesAccounts | test/sequence_annotation/flows/steps/get_species.py:27-43 | the step warns nothing, reports every item once, and every success wraps an input with a supported species |
| GetSpecies.GetSpeciesErrors | test/sequence_annotation/flows/steps/get_species.py:27-82 | apart from an exception the custom-entity fetch raises, the step raises only for a missing DNA sequence, a missing clone field or a list-valued clone field |
| GetSpecies.GetSpeciesOkWhen | test/sequence_annotation/flows/steps/get_species.py:27-82 | apart from an exception the custom-entity fetch raises, when every item has a DNA sequence and every sequence item a non-list clone value, the step does not raise |
| GetSpecies.OverrideSpecies | test/sequence_annotation/flows/steps/get_species.py:76-80 | the update loop leaves the dict the overriding specification describes |
| GetSpecies.SpeciesByDnaSequenceId | test/sequence_annotation/flows/steps/get_species.py:48-82 | returns the species dict or the error, and the entity fetch, the specification describes |
| GetSpecies.Execute | test/sequence_annotation/flows/steps/get_species.py:27-43 | returns fresh results equal to the specification's report, or the same error, and makes the fetch the specification names |
| GetSpecies.ClassifyLoop | test/sequence_annotation/flows/steps/get_species.py:35-41 | the loop over the items records each verdict in turn, or raises at the first item without a DNA sequence |
| GetSpecies.SpeciesByEntity | test/sequence_annotation/flows/steps/get_species.py:71-74 | the dict comprehension from clone entity id to its "Species" text, later entities winning; `EntitySpeciesLastWins` proves the last fetched entity with an id gives its species |
| GetSpecies.EntitySpecies | test/sequence_annotation/flows/steps/get_species.py:77-78 | the species `.get` finds for a clone id: only a string id that is a fetched entity's id finds one; `EntitySpeciesAbsent` proves a non-string or unknown id gives None |
| GetSpecies.SpeciesById | test/sequence_annotation/flows/steps/get_species.py:48-82 | `_get_species_by_dna_sequence_id`: the feature species, overwritten by the clone species when there are clone ids, or the first exception a comprehension raises; `GetSpeciesOfFeature` and `GetSpeciesOfSequence` prove which species each item is judged on |
| GetSpecies.EntityRequest | test/sequence_annotation/flows/steps/get_species.py:64-68 | the ids the custom-entity fetch is called with, or none when a comprehension raises first or there are no clone ids; `RequestOnlyForSequences` and `RequestForEverySequence` prove the fetch happens exactly with sequence items |
| GetSpecies.Classify | test/sequence_annotation/flows/steps/get_species.py:35-41 | one turn of the loop: raises when the item has no DNA sequence, otherwise the verdict on the species looked up by the DNA id; `OutcomeIsVerdict` proves the outcome is that verdict |
| GetSpecies.StepOutcomes | test/sequence_annotation/flows/steps/get_species.py:33-41 | the outcomes of the loop in item order, after the species dict is built, or the first exception; `StepOutcomesJudged` proves each outcome is its own item's |
| ExecuteIgBlast.Runs | test/sequence_annotation/flows/steps/execute_igblast.py:28 | the maximal runs of consecutive items of equal species, in order, concatenating back to the items |
| ExecuteIgBlast.RunsJoin | test/sequence_annotation/flows/steps/execute_igblast.py:28 | an item with the species of the following run joins that run |
| ExecuteIgBlast.RunsStart | test/sequence_annotation/flows/steps/execute_igblast.py:28 | an item with another species than the following run starts a run of its own |
| ExecuteIgBlast.ToIgSequenceAll | test/sequence_annotation/flows/steps/execute_igblast.py:33 | one submitted-sequence conversion per item, in order |
| ExecuteIgBlast.IgSequences | test/sequence_annotation/flows/steps/execute_igblast.py:33 | the submitted sequences are the id and bases of every item in order; the comprehension raises exactly when an item has no DNA sequence |
| ExecuteIgBlast.RunVerdict | test/sequence_annotation/flows/steps/execute_igblast.py:38-63 | every item of a run succeeds when both submissions return 0; otherwise every item fails with the IMGT error text |
| ExecuteIgBlast.RunOutcomesAll | test/sequence_annotation/flows/steps/execute_igblast.py:28-63 | one outer-loop iteration per run, in order |
| ExecuteIgBlast.FlattenAbout | test/sequence_annotation/flows/steps/execute_igblast.py:28-63 | outcomes about each run's items, concatenated, are about the concatenated items |
| ExecuteIgBlast.StepOutcomesAbout | test/sequence_annotation/flows/steps/execute_igblast.py:28-63 | every item has exactly one outcome, at its own position: its record or its failure, never a warning |
| ExecuteIgBlast.AboutReport | test/sequence_annotation/flows/steps/execute_igblast.py:50-63 | such outcomes keep the name, warn nothing, and report each item once |
| ExecuteIgBlast.AboutReportMembers | test/sequence_annotation/flows/steps/execute_igblast.py:50-63 | each success wraps one of the items in a well-formed analysis record; each failure is one of the items |
| ExecuteIgBlast.AboutReportStage | test/sequence_annotation/flows/steps/execute_igblast.py:50-60 | the successes are well-formed analysis records |
| ExecuteIgBlast.ExecuteIgBlastAccounts | test/sequence_annotation/flows/steps/execute_igblast.py:25-65 | the step warns nothing, reports every item once, succeeds only with analysis records wrapping inputs, and fails only inputs |
| ExecuteIgBlast.RunAnalysis | test/sequence_annotation/flows/steps/execute_igblast.py:38-60 | in a successful run an item's analysis holds the IMGT version and both reports' rows whose sequence_id is the item's DNA id |
| ExecuteIgBlast.SubmissionsPairUp | test/sequence_annotation/flows/steps/execute_igblast.py:32-36 | every run that gets this far is submitted twice with the same sequences and organism, IMGT first and Kabat second |
| ExecuteIgBlast.RowForFound | test/sequence_annotation/flows/steps/execute_igblast.py:40-57 | a row found for an id is a report row with that sequence_id; none is found exactly when there is none |
| ExecuteIgBlast.RowForLastWins | test/sequence_annotation/flows/steps/execute_igblast.py:40-48 | when a report repeats a sequence_id the later row is kept |
| ExecuteIgBlast.RunOutcomesErr | test/sequence_annotation/flows/steps/execute_igblast.py:32-33 | apart from an exception the IgBLAST call or its report parsing raises, a run raises only for an unsupported species, checked first, or for an item without a DNA sequence |
| ExecuteIgBlast.ExecuteIgBlastErrors | test/sequence_annotation/flows/steps/execute_igblast.py:25-65 | apart from an exception the IgBLAST call or its report parsing raises, the step raises only for an unsupported species among the items or an item without a DNA sequence |
| ExecuteIgBlast.RaisingRun | test/sequence_annotation/flows/steps/execute_igblast.py:28-33 | the step's exception is that of one of its runs |
| ExecuteIgBlast.ExecuteIgBlastOkWhen | test/sequence_annotation/flows/steps/execute_igblast.py:25-65 | apart from an exception the IgBLAST call or its report parsing raises, with supported species and fetched DNA sequences throughout the step does not raise |
| ExecuteIgBlast.AddSucceededRun | test/sequence_annotation/flows/steps/execute_igblast.py:50-60 | the loop over a successful run adds exactly that run's verdict to the results |
| ExecuteIgBlast.AddFailedRun | test/sequence_annotation/flows/steps/execute_igblast.py:61-63 | the loop over a failed run adds exactly that run's verdict to the results |
| ExecuteIgBlast.ExecuteRun | test/sequence_annotation/flows/steps/execute_igblast.py:29-63 | one outer iteration raises exactly when the specification raises, otherwise adds the run's outcomes, and makes the run's submissions |
| ExecuteIgBlast.ExecuteRuns | test/sequence_annotation/flows/steps/execute_igblast.py:28-63 | the outer loop raises the first run's exception, otherwise holds all runs' outcomes, and makes every submission up to the raising run |
| ExecuteIgBlast.Execute | test/sequence_annotation/flows/steps/execute_igblast.py:25-65 | returns fresh results equal to the specification's report, or the same error, and makes exactly the specified IgBLAST calls in order |
| ExecuteIgBlast.SubmissionsAdvance | test/sequence_annotation/flows/steps/execute_igblast.py:28-36 | the calls made so far plus those of the current run lead to all the calls |
| ExecuteIgBlast.RunSubmissionsOk | test/sequence_annotation/flows/steps/execute_igblast.py:35-36 | a run that does not raise makes its two calls, IMGT first |
| ExecuteIgBlast.SubmissionsStep | test/sequence_annotation/flows/steps/execute_igblast.py:28-36 | the calls from a run on are that run's, then the later runs' unless it raised |
| ExecuteIgBlast.KeyErrorText | test/sequence_annotation/flows/steps/execute_igblast.py:32 | the text of the `KeyError` that `SPECIES_MAPPING[species]` raises: the species between single quotes (see "## Left out") |
| ExecuteIgBlast.ToIgSequence | test/sequence_annotation/flows/steps/execute_igblast.py:33 | one element of the comprehension: the DNA sequence's id and bases, raising when the item has no DNA sequence; `IgSequences` states the list's properties |
| ExecuteIgBlast.RunRequest | test/sequence_annotation/flows/steps/execute_igblast.py:32-33 | a run's request: the organism is looked up first, raising the `KeyError` for an unmapped species, then the sequences are built; `RunOutcomesErr` proves which of the two errors a run raises |
| ExecuteIgBlast.RowsById | test/sequence_annotation/flows/steps/execute_igblast.py:40-48 | the dict comprehension keyed by each row's sequence_id, later rows winning; `RowForLastWins` proves the last row with an id is the one kept |
| ExecuteIgBlast.RowFor | test/sequence_annotation/flows/steps/execute_igblast.py:56-57 | `dict.get` on that dict: the row when the id is a key, otherwise None; `RowForFound` proves a row is found exactly when some row carries the id |
| ExecuteIgBlast.Blasted | test/sequence_annotation/flows/steps/execute_igblast.py:51-60 | the success record of an item: the item with the IMGT version and the IMGT and Kabat rows of its DNA id; `RunAnalysis` proves the rows are the ones carrying that id |
| ExecuteIgBlast.RunOutcomes | test/sequence_annotation/flows/steps/execute_igblast.py:28-63 | one turn of the outer loop: build the request, post it under IMGT and then Kabat, and route the run's items by `RunVerdict`; `RunOutcomesErr` and `SubmissionsPairUp` prove its errors and calls |
| ExecuteIgBlast.StepOutcomes | test/sequence_annotation/flows/steps/execute_igblast.py:28-63 | the outcomes of all runs of `Runs(items)` in order, or the first run's exception; `StepOutcomesAbout` proves one outcome per item, at the item's position |
| ExecuteIgBlast.ExecuteIgBlastSpec | test/sequence_annotation/flows/steps/execute_igblast.py:25-65 | the results `execute` returns, or the exception it raises; `ExecuteIgBlastAccounts`, `ExecuteIgBlastErrors` and `ExecuteIgBlastOkWhen` prove its accounting and exactly when it raises |
| ExecuteIgBlast.Submissions | test/sequence_annotation/flows/steps/execute_igblast.py:28-36 | the `post_sequences_sync` calls made, run by run, up to the run that raises; `SubmissionsPairUp` proves each run calls IMGT then Kabat with the same sequences and organism |
| ExecuteIgBlast.RunSubmissions | test/sequence_annotation/flows/steps/execute_igblast.py:35-36 | the calls one run makes: none when building its request raises, otherwise IMGT then Kabat with the same sequences and organism; `RunSubmissionsOk` proves the two-call case |
| ExcludeStopCodons.Classify | test/sequence_annotation/flows/steps/exclude_stop_codons.py:34-42 | an item raises exactly when it has no IMGT row, or has a stop codon and no DNA sequence; otherwise a stop codon warns with the stop-codon message and anything else, a missing value included, succeeds unchanged |
| ExcludeStopCodons.ClassifyAll | test/sequence_annotation/flows/steps/exclude_stop_codons.py:34-42 | one loop iteration per item, in order |
| ExcludeStopCodons.Productive | test/sequence_annotation/flows/steps/exclude_stop_codons.py:34-36 | the items that pass stay analysis records |
| ExcludeStopCodons.NonProductive | test/sequence_annotation/flows/steps/exclude_stop_codons.py:37-42 | the excluded items stay analysis records |
| ExcludeStopCodons.StopCodonWarnings | test/sequence_annotation/flows/steps/exclude_stop_codons.py:38 | one stop-codon warning per excluded item, in order |
| ExcludeStopCodons.Payload | test/sequence_annotation/flows/steps/exclude_stop_codons.py:58-68 | the payload needs a schema type and a DNA sequence, raising otherwise; it copies the sequence's id, name, bases, folder, circularity and custom fields, keeps exactly its set non-computed fields, and sets the schema's Comment field to the stop-codon message |
| ExcludeStopCodons.PayloadAll | test/sequence_annotation/flows/steps/exclude_stop_codons.py:45-48 | one payload per excluded item, in order |
| ExcludeStopCodons.FiltersSplit | test/sequence_annotation/flows/steps/exclude_stop_codons.py:34-42 | the passing and excluded items together number the items; without stop codons every item passes and none is excluded, and only then |
| ExcludeStopCodons.FiltersCount | test/sequence_annotation/flows/steps/exclude_stop_codons.py:34-42 | every item goes to exactly one of the two lists |
| ExcludeStopCodons.FiltersClean | test/sequence_annotation/flows/steps/exclude_stop_codons.py:34-36 | without a stop codon every item passes |
| ExcludeStopCodons.FiltersNoneExcluded | test/sequence_annotation/flows/steps/exclude_stop_codons.py:37-44 | nothing is excluded exactly when no item has a stop codon |
| ExcludeStopCodons.NonProductiveStep | test/sequence_annotation/flows/steps/exclude_stop_codons.py:37-42 | one more item extends the excluded list by itself exactly when it has a stop codon |
| ExcludeStopCodons.StepOutcomesJudged | test/sequence_annotation/flows/steps/exclude_stop_codons.py:34-42 | when the loop does not raise every item has an IMGT row and every excluded item a DNA sequence, and each outcome is its item's |
| ExcludeStopCodons.JudgedReport | test/sequence_annotation/flows/steps/exclude_stop_codons.py:34-42 | the passing items succeed in order, the excluded ones are warned in order, and nothing fails |
| ExcludeStopCodons.ExcludeStopCodonsPartition | test/sequence_annotation/flows/steps/exclude_stop_codons.py:29-50 | items without a stop codon succeed unchanged in input order, the others are warned in input order, nothing fails, and every item is accounted for once |
| ExcludeStopCodons.NonProductiveHaveSequences | test/sequence_annotation/flows/steps/exclude_stop_codons.py:42-47 | every excluded item has a stop codon and a DNA sequence |
| ExcludeStopCodons.NonProductiveMembers | test/sequence_annotation/flows/steps/exclude_stop_codons.py:42 | every excluded item is one of the items and has a stop codon |
| ExcludeStopCodons.ExcludeStopCodonsOkIff | test/sequence_annotation/flows/steps/exclude_stop_codons.py:29-68 | apart from an exception the bulk update call raises, the step raises exactly when an item has no IMGT row, or an item with a stop codon has no DNA sequence or no schema type, and raises only those errors |
| ExcludeStopCodons.NonProductiveHas | test/sequence_annotation/flows/steps/exclude_stop_codons.py:37-42 | every item with a stop codon is in the excluded list |
| ExcludeStopCodons.RequestWhen | test/sequence_annotation/flows/steps/exclude_stop_codons.py:44-48 | the bulk update is made exactly when the step does not raise and some item has a stop codon, with one payload per excluded item in order |
| ExcludeStopCodons.ToDnaSequenceBulkUpdate | test/sequence_annotation/flows/steps/exclude_stop_codons.py:58-68 | returns the payload the specification describes |
| ExcludeStopCodons.BuildUpdates | test/sequence_annotation/flows/steps/exclude_stop_codons.py:45-48 | returns the excluded items' payloads in order, or the first exception |
| ExcludeStopCodons.Execute | test/sequence_annotation/flows/steps/exclude_stop_codons.py:29-50 | returns fresh results equal to the specification's report, or the same error, and submits the specified bulk update |
| ExcludeStopCodons.HasStopCodon | test/sequence_annotation/flows/steps/exclude_stop_codons.py:35 | the IMGT row's `stop_codon` is exactly the string 'T', the only value that excludes an item; `FiltersNoneExcluded` and `NonProductiveHas` prove an item is excluded exactly when it holds |
| ExcludeStopCodons.StepOutcomes | test/sequence_annotation/flows/steps/exclude_stop_codons.py:34-42 | the outcomes of the loop in item order, or the first exception it raises; `StepOutcomesJudged` proves each outcome is its own item's |
| ExcludeStopCodons.Updates | test/sequence_annotation/flows/steps/exclude_stop_codons.py:45-48 | the comprehension of bulk-update payloads for the excluded items, in order, or the first exception it raises; `BuildUpdates` proves the method builds the same |
| ExcludeStopCodons.ExcludeStopCodonsSpec | test/sequence_annotation/flows/steps/exclude_stop_codons.py:29-50 | the results `execute` returns, or the exception it raises from the loop or the payloads; `ExcludeStopCodonsPartition` and `ExcludeStopCodonsOkIff` prove the partition and exactly when it raises |
| ExcludeStopCodons.Request | test/sequence_annotation/flows/steps/exclude_stop_codons.py:44-48 | the bulk update submitted: none when the loop raises or nothing is excluded, otherwise the payloads; `RequestWhen` proves the update is made exactly when something is excluded and the payloads build |
| CreateAaSequences.MissingSequenceRequest | test/sequence_annotation/flows/steps/create_aa_sequences.py:33-39 | for an item with no DNA sequence the mapper always raises: on the IMGT row first when it is missing, on the DNA fields when there is a schema |
| CreateAaSequences.BuildRequest | test/sequence_annotation/flows/steps/create_aa_sequences.py:33-39 | for a fetched sequence the request is the mapper's create payload from the item's sequence, schema type and analysis; without one it raises |
| CreateAaSequences.ClassifyRequest | test/sequence_annotation/flows/steps/create_aa_sequences.py:32-47 | an item succeeds exactly when its request is built and the service creates the AA sequence, holding both in a well-formed record; otherwise it fails with the first exception's text; never warns |
| CreateAaSequences.Classify | test/sequence_annotation/flows/steps/create_aa_sequences.py:31-47 | the same, for the request the mapper builds for the item |
| CreateAaSequences.Outcomes | test/sequence_annotation/flows/steps/create_aa_sequences.py:31-47 | one outcome per item, in order |
| CreateAaSequences.CreateAaSequencesSpec | test/sequence_annotation/flows/steps/create_aa_sequences.py:25-49 | no items give empty results |
| CreateAaSequences.BuildAll | test/sequence_annotation/flows/steps/create_aa_sequences.py:33-39 | one mapper call per item, in order |
| CreateAaSequences.AnnotateIgnoresSequence | test/sequence_annotation/flows/steps/create_aa_sequences.py:33-39 | annotating a record without a schema type never reads the DNA sequence |
| CreateAaSequences.BuildRequestErrors | test/sequence_annotation/flows/steps/create_aa_sequences.py:33-47 | the mapper fails an item only with the exceptions its data can cause or for a missing DNA sequence |
| CreateAaSequences.CreateAaSequencesAccounts | test/sequence_annotation/flows/steps/create_aa_sequences.py:25-49 | the step warns nothing and reports every item once; each success wraps one of the items with the request built for it and what the service returned for that request; each failure is one of the items |
| CreateAaSequences.OutcomesCreated | test/sequence_annotation/flows/steps/create_aa_sequences.py:31-47 | each outcome is its own item's: created from its request, or failed |
| CreateAaSequences.CreatedSucceeded | test/sequence_annotation/flows/steps/create_aa_sequences.py:41-43 | each success is the record created for an item from that item's request |
| CreateAaSequences.SubmittedSpec | test/sequence_annotation/flows/steps/create_aa_sequences.py:41 | the service is called only with requests built for items, at most once per item, and with every item's request in order when all can be built |
| CreateAaSequences.ToAaSequenceRequest | test/sequence_annotation/flows/steps/create_aa_sequences.py:33-39 | returns the request or the exception the specification describes |
| CreateAaSequences.CreateOne | test/sequence_annotation/flows/steps/create_aa_sequences.py:32-47 | one iteration adds the item's outcome and calls the service exactly when a request was built |
| CreateAaSequences.Execute | test/sequence_annotation/flows/steps/create_aa_sequences.py:25-49 | returns fresh results equal to the specification's report and calls the service with exactly the specified requests |
| CreateAaSequences.Submitted | test/sequence_annotation/flows/steps/create_aa_sequences.py:31-41 | the requests passed to `create_aa_sequence`, in item order: those the mapper could build; `SubmittedSpec` proves `Execute` makes exactly these calls |
| FillTranslations.TranslationValue | test/sequence_annotation/flows/steps/fill_translations.py:44-47 | a sequence's "Translation AA" is a list holding the AA sequence id; a feature's is the bare id |
| FillTranslations.Payload | test/sequence_annotation/flows/steps/fill_translations.py:41-49 | the payload needs a schema type and a DNA sequence, raising otherwise; it copies the sequence's id, name, bases, folder, circularity and custom fields, keeps exactly its set non-computed fields, and sets the schema's "Translation AA" field |
| FillTranslations.PayloadAll | test/sequence_annotation/flows/steps/fill_translations.py:33-36 | one payload per item, in order |
| FillTranslations.SucceededItems | test/sequence_annotation/flows/steps/fill_translations.py:38-39 | one translation record per item, in order |
| FillTranslations.UpdatesSpec | test/sequence_annotation/flows/steps/fill_translations.py:32-36 | the bulk update can be built exactly when every item has a schema type and a DNA sequence, and then holds one payload per item in order |
| FillTranslations.BatchesAreCreated | test/sequence_annotation/flows/steps/fill_translations.py:22-36 | every batch the retries submit is made of the items, so each is sent to update_dna_sequences |
| FillTranslations.SubBatch | test/sequence_annotation/flows/steps/fill_translations.py:22-36 | a batch drawn from the items is a valid input of get_task |
| FillTranslations.OneFillPerItem | test/sequence_annotation/flows/steps/fill_translations.py:38-39 | get_succeeded_items returns one output per input |
| FillTranslations.FillTranslationsAccounts | test/sequence_annotation/flows/steps/fill_translations.py:22-39 | every item ends succeeded or failed exactly once, retries included; nothing is warned; each failure is one of the items |
| FillTranslations.FillTranslationsSucceeded | test/sequence_annotation/flows/steps/fill_translations.py:38-39 | each success is the well-formed translation record of one of the items |
| FillTranslations.SucceededFromBatch | test/sequence_annotation/flows/steps/fill_translations.py:38-39 | the records read back for any batch drawn from the items are well-formed translation records of those items |
| FillTranslations.FillTranslationsAllSucceed | test/sequence_annotation/flows/steps/fill_translations.py:32-39 | a bulk update without errors makes every item succeed in input order and retries nothing |
| FillTranslations.FillTranslationsRaisesFirst | test/sequence_annotation/flows/steps/fill_translations.py:32-36 | a bulk update that cannot be built raises before any task is submitted again |
| FillTranslations.ToDnaSequenceBulkUpdate | test/sequence_annotation/flows/steps/fill_translations.py:41-49 | returns the payload the specification describes |
| FillTranslations.Execute | test/sequence_annotation/flows/steps/fill_translations.py:22-49 | returns fresh results equal to the base asynchronous step's report, or the same error, and submits the specified batches |
| FillTranslations.Updates | test/sequence_annotation/flows/steps/fill_translations.py:33-36 | the comprehension of bulk-update payloads, one per item in order, or the first exception it raises; `UpdatesSpec` proves it builds exactly when every item has a schema type and a DNA sequence |
| FillTranslations.GetTask | test/sequence_annotation/flows/steps/fill_translations.py:32-36 | `get_task`: one `update_dna_sequences` call with all the payloads, after they are built; `FillTranslationsRaisesFirst` proves a payload error raises before any task |
| FillTranslations.Step | test/sequence_annotation/flows/steps/fill_translations.py:22-39 | the step as the base asynchronous step runs it: its results class, `get_task` and `get_succeeded_items`; `OneFillPerItem` proves one output per input |
| FillTranslations.FillTranslationsSpec | test/sequence_annotation/flows/steps/fill_translations.py:22-39 | the results `execute` returns, or the exception it raises, with error indices restricted as for `AsyncSteps.ExecuteSpec`; `FillTranslationsAccounts`, `FillTranslationsSucceeded` and `FillTranslationsAllSucceed` prove its accounting and its successes |
| CreateGermlineAlignmentSequences.BulkCreateFor | test/sequence/flows/steps/create_germine_alignment_sequences.py:35 | the IMGT row is read first, raising when missing, then the DNA id, raising when missing; otherwise the mapper's bulk create with the sanitized germline alignment |
| CreateGermlineAlignmentSequences.BulkCreateAll | test/sequence/flows/steps/create_germine_alignment_sequences.py:34-37 | one bulk-create payload per item, in order |
| CreateGermlineAlignmentSequences.GermlineKey | test/sequence/flows/steps/create_germine_alignment_sequences.py:41 | a created sequence's key is its "DNA Sequence ID" value; a missing field or a list value raises |
| CreateGermlineAlignmentSequences.Lookup | test/sequence/flows/steps/create_germine_alignment_sequences.py:45 | a lookup finds a sequence exactly when the id is a key |
| CreateGermlineAlignmentSequences.Matched | test/sequence/flows/steps/create_germine_alignment_sequences.py:45 | an item pairs with the looked-up sequence, and raises exactly when it has no DNA sequence |
| CreateGermlineAlignmentSequences.MatchedAll | test/sequence/flows/steps/create_germine_alignment_sequences.py:45 | one result per item, in order |
| CreateGermlineAlignmentSequences.SucceededItems | test/sequence/flows/steps/create_germine_alignment_sequences.py:39-45 | one result per item |
| CreateGermlineAlignmentSequences.BulkCreatesSpec | test/sequence/flows/steps/create_germine_alignment_sequences.py:33-37 | the bulk create is built exactly when every item has an IMGT row and a DNA sequence, one payload per item, with the sanitized germline alignment as bases, the item's DNA id as "DNA Sequence ID" and the name suffixed _germline_alignment |
| CreateGermlineAlignmentSequences.GermlineByIdErr | test/sequence/flows/steps/create_germine_alignment_sequences.py:40-43 | the comprehension raises exactly when a created sequence has no "DNA Sequence ID" field or a list in it |
| CreateGermlineAlignmentSequences.GermlineByIdIsMap | test/sequence/flows/steps/create_germine_alignment_sequences.py:40-43 | when it does not raise, the comprehension maps each "DNA Sequence ID" value to its sequence, later ones winning |
| CreateGermlineAlignmentSequences.MatchedSpec | test/sequence/flows/steps/create_germine_alignment_sequences.py:40-45 | an item's germline sequence is a created one carrying its DNA id, and there is none exactly when no created sequence carries it |
| CreateGermlineAlignmentSequences.MatchedLastWins | test/sequence/flows/steps/create_germine_alignment_sequences.py:40-45 | when several created sequences carry the id, the last one is matched |
| CreateGermlineAlignmentSequences.SucceededItemsSpec | test/sequence/flows/steps/create_germine_alignment_sequences.py:39-45 | get_succeeded_items returns one well-formed record per item in order, holding the looked-up sequence, and raises exactly for a bad key or an item without a DNA sequence |
| CreateGermlineAlignmentSequences.OneGermlinePerItem | test/sequence/flows/steps/create_germine_alignment_sequences.py:39-45 | get_succeeded_items returns one output per input |
| CreateGermlineAlignmentSequences.SubBatch | test/sequence/flows/steps/create_germine_alignment_sequences.py:33-45 | a batch drawn from the items is a valid input of get_task and get_succeeded_items |
| CreateGermlineAlignmentSequences.BatchesAreFilled | test/sequence/flows/steps/create_germine_alignment_sequences.py:23-37 | every batch the retries submit is made of the items, so each is sent to create_dna_sequences |
| CreateGermlineAlignmentSequences.CreateGermlineAlignmentSequencesAccounts | test/sequence/flows/steps/create_germine_alignment_sequences.py:23-45 | every item ends succeeded or failed exactly once, retries included; nothing is warned; each success is a well-formed record of an item and each failure one of the items |
| CreateGermlineAlignmentSequences.SucceededStage | test/sequence/flows/steps/create_germine_alignment_sequences.py:39-45 | every success of the retrying step is a well-formed germline-alignment record built on one of the items |
| CreateGermlineAlignmentSequences.CreateGermlineAlignmentSequencesAllSucceed | test/sequence/flows/steps/create_germine_alignment_sequences.py:33-45 | a bulk create without errors returns what get_succeeded_items reads back for all items, or its exception |
| CreateGermlineAlignmentSequences.Execute | test/sequence/flows/steps/create_germine_alignment_sequences.py:23-45 | returns fresh results equal to the base asynchronous step's report, or the same error, and submits the specified batches |
| CreateGermlineAlignmentSequences.GetTask | test/sequence/flows/steps/create_germine_alignment_sequences.py:33-37 | `get_task`: one `create_dna_sequences` call with all the payloads, after they are built; `BulkCreatesSpec` proves exactly when they build and what each holds |
| CreateGermlineAlignmentSequences.LinkedId | test/sequence/flows/steps/create_germine_alignment_sequences.py:41 | the "DNA Sequence ID" custom field value of a created sequence; `GermlineKey` states when reading it raises |
| CreateGermlineAlignmentSequences.GermlineById | test/sequence/flows/steps/create_germine_alignment_sequences.py:40-43 | the dict comprehension over the bulk task's response, later sequences winning, or the exception a key raises; `GermlineByIdErr` and `GermlineByIdIsMap` prove exactly when it raises and what it maps |
| CreateGermlineAlignmentSequences.Step | test/sequence/flows/steps/create_germine_alignment_sequences.py:23-45 | the step as the base asynchronous step runs it: its results class, `get_task` and `get_succeeded_items`; `OneGermlinePerItem` proves one output per input |
| CreateGermlineAlignmentSequences.CreateGermlineAlignmentSequencesSpec | test/sequence/flows/steps/create_germine_alignment_sequences.py:23-45 | the results `execute` returns, or the exception it raises, with error indices restricted as for `AsyncSteps.ExecuteSpec`; `CreateGermlineAlignmentSequencesAccounts` and `CreateGermlineAlignmentSequencesAllSucceed` prove its accounting and its successes |
| CreateNucleotideTemplateAlignment.AlignmentArguments | test/sequence_annotation/flows/steps/create_nucleotide_template_alignments.py:31 | the arguments are read left to right: a missing germline sequence raises first, then a missing DNA sequence; otherwise the germline name, the DNA id and the germline id |
| CreateNucleotideTemplateAlignment.Classify | test/sequence_annotation/flows/steps/create_nucleotide_template_alignments.py:29-37 | an item succeeds exactly when it has both sequences and the service raises nothing, as a well-formed record wrapping it; otherwise it fails with the first exception's text; never warns |
| CreateNucleotideTemplateAlignment.Outcomes | test/sequence_annotation/flows/steps/create_nucleotide_template_alignments.py:29-37 | one outcome per item, in order |
| CreateNucleotideTemplateAlignment.CreateNucleotideTemplateAlignmentSpec | test/sequence_annotation/flows/steps/create_nucleotide_template_alignments.py:23-39 | no items give empty results |
| CreateNucleotideTemplateAlignment.ArgumentsAll | test/sequence_annotation/flows/steps/create_nucleotide_template_alignments.py:29-31 | one argument evaluation per item, in order |
| CreateNucleotideTemplateAlignment.OutcomesAligned | test/sequence_annotation/flows/steps/create_nucleotide_template_alignments.py:29-37 | each outcome is its own item's: a success wrapping it or a failure of it |
| CreateNucleotideTemplateAlignment.AlignedReport | test/sequence_annotation/flows/steps/create_nucleotide_template_alignments.py:29-37 | each success wraps one of the items that had both sequences; each failure is one of the items |
| CreateNucleotideTemplateAlignment.CreateNucleotideTemplateAlignmentAccounts | test/sequence_annotation/flows/steps/create_nucleotide_template_alignments.py:23-39 | the step warns nothing and reports every item once; each success wraps an item with both sequences; each failure is one of the items |
| CreateNucleotideTemplateAlignment.CreateNucleotideTemplateAlignmentFails | test/sequence_annotation/flows/steps/create_nucleotide_template_alignments.py:29-37 | an item whose germline sequence was not found fails with the missing-name error; an item whose alignment goes through succeeds |
| CreateNucleotideTemplateAlignment.RequestedSpec | test/sequence_annotation/flows/steps/create_nucleotide_template_alignments.py:31 | the service is called only with arguments of items, at most once per item, and once per item in order when every item has both sequences |
| CreateNucleotideTemplateAlignment.AlignOne | test/sequence_annotation/flows/steps/create_nucleotide_template_alignments.py:30-37 | one iteration adds the item's outcome and calls the service exactly when the arguments could be read |
| CreateNucleotideTemplateAlignment.Execute | test/sequence_annotation/flows/steps/create_nucleotide_template_alignments.py:23-39 | returns fresh results equal to the specification's report and calls the service with exactly the specified arguments |
| CreateNucleotideTemplateAlignment.Requested | test/sequence_annotation/flows/steps/create_nucleotide_template_alignments.py:29-31 | the `create_template_alignment` calls, in item order, one per item whose arguments can be read; `RequestedSpec` proves `Execute` makes exactly these calls |
| IgBlastToBenchling.SpeciesOrganism | test/sequence_annotation/flows/mappers/igblast_to_benchling.py:17-29 | a species maps to an organism exactly when it is one of the four supported names |
| IgBlastToBenchling.SpeciesMappingInjective | test/sequence_annotation/flows/mappers/igblast_to_benchling.py:17-29 | distinct supported species map to distinct organisms, and none maps to the rabbit organism |
| IgBlastToBenchling.LabelExamples | test/sequence_annotation/flows/mappers/igblast_to_benchling.py:93-106 | cdr1 under IMGT is labelled CDR1_IMGT and fwr1 under Kabat FR1_Kabat |
| IgBlastToBenchling.RegionKwargs | test/sequence_annotation/flows/mappers/igblast_to_benchling.py:81-90 | the region search gets fwr1, cdr1, fwr2, cdr2, fwr3, cdr3, fwr4 in that order, each the row's value for the key with _aa appended |
| IgBlastToBenchling.RegionKeysAreSearched | test/sequence_annotation/flows/mappers/igblast_to_benchling.py:81-114 | every CDR and FWR key the loops visit is one of the search's keyword arguments |
| IgBlastToBenchling.Search | test/sequence_annotation/flows/mappers/igblast_to_benchling.py:61-91 | a None amino-acid string raises; otherwise the search is the region detection on it |
| IgBlastToBenchling.LabelShape | test/sequence_annotation/flows/mappers/igblast_to_benchling.py:93-106 | every label starts with C or F, carries its region's number, and has the system's name after a fixed prefix |
| IgBlastToBenchling.LabelsDistinct | test/sequence_annotation/flows/mappers/igblast_to_benchling.py:93-114 | no two regions of any kind, in either numbering system, share a field name |
| IgBlastToBenchling.AnnotateStrStep | test/sequence_annotation/flows/mappers/igblast_to_benchling.py:97-102 | on a str value one iteration sets the label's field to the value and annotates the region marking it, touching no other label |
| IgBlastToBenchling.AnnotateOtherStep | test/sequence_annotation/flows/mappers/igblast_to_benchling.py:97-114 | on any other value one iteration changes nothing |
| IgBlastToBenchling.AnnotateRegionsSpec | test/sequence_annotation/flows/mappers/igblast_to_benchling.py:93-114 | when the search covers every str value, the CDR or FWR loop cannot raise, stores and annotates each str value where it occurs, and changes no field outside its labels |
| IgBlastToBenchling.AnnotatesExtend | test/sequence_annotation/flows/mappers/igblast_to_benchling.py:79-114 | later loops keep what earlier loops wrote under other labels |
| IgBlastToBenchling.LabelOutside | test/sequence_annotation/flows/mappers/igblast_to_benchling.py:93-114 | a label of one kind and system is never a label of another kind or system |
| IgBlastToBenchling.SearchCovers | test/sequence_annotation/flows/mappers/igblast_to_benchling.py:80-114 | a successful search gives every str-valued CDR and FWR a region that marks its text |
| IgBlastToBenchling.AnnotateDomainSpec | test/sequence_annotation/flows/mappers/igblast_to_benchling.py:79-114 | once a numbering system's search succeeds its loops cannot raise, every str region is stored and annotated where it occurs, and no other field changes |
| IgBlastToBenchling.AlignmentKwargs | test/sequence_annotation/flows/mappers/igblast_to_benchling.py:117-124 | the alignment search gets v, d, j alignments in order, each the sanitized IMGT value |
| IgBlastToBenchling.RequiredValue | test/sequence_annotation/flows/mappers/igblast_to_benchling.py:67-72 | reading a missing DNA field raises; a present one gives its value |
| IgBlastToBenchling.FirstFunction | test/sequence_annotation/flows/mappers/igblast_to_benchling.py:72-74 | the type of a feature is the first function of a non-empty list, and the empty string otherwise |
| IgBlastToBenchling.Request | test/sequence_annotation/flows/mappers/igblast_to_benchling.py:133-162 | a create is named after the DNA sequence with _translation, holds the sanitized amino acids, links to the sequence id and uses the configured registry and schema; an update keeps the existing name, amino acids, aliases, custom fields, registry, folder and schema; both carry the fields, the annotations and the configured authors |
| IgBlastToBenchling.AaSequencePayload | test/sequence_annotation/flows/mappers/igblast_to_benchling.py:40-162 | no IMGT row raises; otherwise the payload is the request built from the annotation, or the annotation's exception |
| IgBlastToBenchling.SchemaFieldsAreNotLabels | test/sequence_annotation/flows/mappers/igblast_to_benchling.py:63-114 | the fields set before the loops are never CDR or FWR labels |
| IgBlastToBenchling.AnnotateSearches | test/sequence_annotation/flows/mappers/igblast_to_benchling.py:61-124 | when the annotation succeeds there are amino acids and a Kabat row, and all three searches on the same amino acids succeed |
| IgBlastToBenchling.AnnotateDomainsPair | test/sequence_annotation/flows/mappers/igblast_to_benchling.py:79 | the loop over the two systems is IMGT then Kabat, stopping at an error |
| IgBlastToBenchling.AnnotateDomainsSpec | test/sequence_annotation/flows/mappers/igblast_to_benchling.py:79-114 | both systems store and annotate every str-valued region, the Kabat pass keeps the IMGT fields, and no field outside the labels changes |
| IgBlastToBenchling.PayloadFields | test/sequence_annotation/flows/mappers/igblast_to_benchling.py:40-162 | in a built payload every CDR and FWR of both systems is stored and annotated where it occurs, and every other field is one set before the loops |
| IgBlastToBenchling.AnnotateFields | test/sequence_annotation/flows/mappers/igblast_to_benchling.py:61-131 | the same for the fields and annotations before the request is built |
| IgBlastToBenchling.AnnotateShape | test/sequence_annotation/flows/mappers/igblast_to_benchling.py:79-131 | the annotation is the two systems' pass followed by the alignment loop, which only appends annotations |
| IgBlastToBenchling.StoredAfter | test/sequence_annotation/flows/mappers/igblast_to_benchling.py:79-131 | what the systems' pass stored for a key survives the alignment loop |
| IgBlastToBenchling.AlignmentAnnotationsExtend | test/sequence_annotation/flows/mappers/igblast_to_benchling.py:126-131 | the alignment loop only appends |
| IgBlastToBenchling.Tags | test/sequence_annotation/flows/mappers/igblast_to_benchling.py:102-131 | one colour and name per annotation, in order |
| IgBlastToBenchling.TagsAppend | test/sequence_annotation/flows/mappers/igblast_to_benchling.py:102-131 | tags distribute over concatenation |
| IgBlastToBenchling.RegionTags | test/sequence_annotation/flows/mappers/igblast_to_benchling.py:93-114 | each key's region gets its kind's colour and its label |
| IgBlastToBenchling.AlignmentTags | test/sequence_annotation/flows/mappers/igblast_to_benchling.py:126-131 | each alignment gets the alignment colour and its gene call |
| IgBlastToBenchling.AnnotateRegionsTags | test/sequence_annotation/flows/mappers/igblast_to_benchling.py:93-114 | the CDR or FWR loop appends one annotation per str-valued key, in key order |
| IgBlastToBenchling.AlignmentAnnotationsTags | test/sequence_annotation/flows/mappers/igblast_to_benchling.py:126-131 | the alignment loop appends one annotation per detected alignment, in V, D, J order |
| IgBlastToBenchling.AlignmentDetected | test/sequence_annotation/flows/mappers/igblast_to_benchling.py:117-131 | an alignment is detected exactly when its sanitized sequence is a str |
| IgBlastToBenchling.PayloadAnnotationOrder | test/sequence_annotation/flows/mappers/igblast_to_benchling.py:76-131 | annotations come as IMGT CDR1-3, IMGT FR1-4, Kabat CDR1-3, Kabat FR1-4, each only for a str value, then the detected V, D and J alignments named by their gene calls |
| IgBlastToBenchling.DomainsTags | test/sequence_annotation/flows/mappers/igblast_to_benchling.py:79-114 | the systems' pass writes the IMGT then the Kabat tags, CDRs before FWRs |
| IgBlastToBenchling.DomainTags | test/sequence_annotation/flows/mappers/igblast_to_benchling.py:79-114 | one system's pass appends its CDR tags then its FWR tags |
| IgBlastToBenchling.SearchErrors | test/sequence_annotation/flows/mappers/igblast_to_benchling.py:61-91 | the search raises only the listed payload exceptions |
| IgBlastToBenchling.AnnotateDomainErrors | test/sequence_annotation/flows/mappers/igblast_to_benchling.py:79-114 | a system's pass raises only the listed payload exceptions |
| IgBlastToBenchling.PayloadErrors | test/sequence_annotation/flows/mappers/igblast_to_benchling.py:40-162 | building a payload fails only by a missing row, a missing field, or a missing or unmatched amino-acid string, and never reads the start of a missing region |
| IgBlastToBenchling.AnnotateErrors | test/sequence_annotation/flows/mappers/igblast_to_benchling.py:61-131 | the annotation raises only the listed payload exceptions |
| IgBlastToBenchling.SchemaFieldsErrors | test/sequence_annotation/flows/mappers/igblast_to_benchling.py:63-74 | the fields copied from the DNA entity raise only for a missing field |
| IgBlastToBenchling.AnnotateDomainsErrors | test/sequence_annotation/flows/mappers/igblast_to_benchling.py:79-114 | the loop over both systems raises only the listed payload exceptions |
| IgBlastToBenchling.CopiedFields | test/sequence_annotation/flows/mappers/igblast_to_benchling.py:199-215 | the copy holds exactly the fields with a value, each reduced to that value |
| IgBlastToBenchling.BulkUpdatePayload | test/sequence_annotation/flows/mappers/igblast_to_benchling.py:182-197 | the bulk update keeps id, name, bases, folder and circularity, copies the custom fields, and holds exactly the valued fields that are not computed |
| IgBlastToBenchling.BulkCreate | test/sequence_annotation/flows/mappers/igblast_to_benchling.py:170-180 | a circular sequence named after the DNA sequence with _germline_alignment, in its folder, with the alignment as bases, linked back through its DNA sequence id |
| IgBlastToBenchling.CopyFields | test/sequence_annotation/flows/mappers/igblast_to_benchling.py:199-206 | the key-by-key loop yields the copy the specification describes |
| IgBlastToBenchling.ToDnaSequenceBulkUpdate | test/sequence_annotation/flows/mappers/igblast_to_benchling.py:182-197 | deleting the computed fields one by one yields the specified bulk update |
| IgBlastToBenchling.AnnotateRegionsStops | test/sequence_annotation/flows/mappers/igblast_to_benchling.py:93-114 | the CDR or FWR loop stops at its first error |
| IgBlastToBenchling.AnnotateDomainsStops | test/sequence_annotation/flows/mappers/igblast_to_benchling.py:79-114 | the loop over the systems stops at its first error |
| IgBlastToBenchling.AnnotateRegionsLoop | test/sequence_annotation/flows/mappers/igblast_to_benchling.py:93-114 | the loop writing into the fields and annotations gives the specified result |
| IgBlastToBenchling.AnnotateDomainStep | test/sequence_annotation/flows/mappers/igblast_to_benchling.py:79-114 | one iteration over a numbering system gives the specified result |
| IgBlastToBenchling.AlignmentLoop | test/sequence_annotation/flows/mappers/igblast_to_benchling.py:126-131 | the alignment loop gives the specified annotations |
| IgBlastToBenchling.ToAaSequenceCreateOrUpdate | test/sequence_annotation/flows/mappers/igblast_to_benchling.py:40-162 | the method filling fields and annotations in its loops returns the specified payload or exception |
| IgBlastToBenchling.AnnotateLoops | test/sequence_annotation/flows/mappers/igblast_to_benchling.py:61-131 | the loops give the specified fields and annotations |
| IgBlastToBenchling.RegionKind.Label | test/sequence_annotation/flows/mappers/igblast_to_benchling.py:94-106 | the field and annotation name of a region: the upper-cased CDR key, or the FWR key with `w` removed and upper-cased, then an underscore and the system name; `LabelExamples`, `LabelShape` and `LabelsDistinct` prove its form and that no two regions share a name |
| IgBlastToBenchling.RegionKind.Color | test/sequence_annotation/flows/mappers/igblast_to_benchling.py:102-114 | the annotation colour of a region: #E2E3E5 for CDRs, #395EA8 for FWRs; `RegionTags` proves each region annotation carries its kind's colour |
| IgBlastToBenchling.SchemaFields | test/sequence_annotation/flows/mappers/igblast_to_benchling.py:63-74 | the fields set before the loops: the IMGT version, then Source: Clone and Type for a sequence, or Sequence Source and the first function for a feature, raising when a read field is missing; `SchemaFieldsErrors` and `PayloadFields` prove its errors and that later loops keep these fields |
| IgBlastToBenchling.AnnotateRegion | test/sequence_annotation/flows/mappers/igblast_to_benchling.py:94-114 | one iteration of the CDR or FWR loop: a str value sets the field under the region's name and appends its annotation, a missing region raises, any other value changes nothing; `AnnotateStrStep` and `AnnotateOtherStep` prove both cases |
| IgBlastToBenchling.AnnotateRegions | test/sequence_annotation/flows/mappers/igblast_to_benchling.py:93-114 | the CDR or FWR loop over its keys in order, stopping at the first error; `AnnotateRegionsSpec` and `AnnotateRegionsTags` prove every str value is stored and annotated, in key order |
| IgBlastToBenchling.AnnotateDomain | test/sequence_annotation/flows/mappers/igblast_to_benchling.py:79-114 | one iteration over `data_by_domain_system`: detect the regions, then the CDR loop, then the FWR loop; `AnnotateDomainSpec` and `AnnotateDomainErrors` prove what it stores and when it raises |
| IgBlastToBenchling.AnnotateDomains | test/sequence_annotation/flows/mappers/igblast_to_benchling.py:56-114 | the loop over `data_by_domain_system`, IMGT first and then Kabat; `AnnotateDomainsPair`, `AnnotateDomainsSpec` and `DomainsTags` prove both systems annotate, in that order |
| IgBlastToBenchling.AlignmentAnnotations | test/sequence_annotation/flows/mappers/igblast_to_benchling.py:126-131 | the loop over V, D and J: a detected alignment region appends an annotation in #704878 named by the gene call; `AlignmentAnnotationsTags` and `AlignmentDetected` prove which are appended and in what order |
| IgBlastToBenchling.Annotate | test/sequence_annotation/flows/mappers/igblast_to_benchling.py:56-131 | the fields and annotations the payload gets: the schema fields, both systems' regions, then the alignments, or the first exception; `PayloadFields`, `PayloadAnnotationOrder` and `AnnotateErrors` prove its contents, order and errors |
| IgBlastToBenchling.RegionKind.Keys | test/sequence_annotation/flows/mappers/igblast_to_benchling.py:13-14 | `CDRS` and `FWRS`: cdr1 to cdr3 and fwr1 to fwr4, in that order; `AnnotateRegionsSpec` and `PayloadFields` prove every key is searched, stored and annotated |
| IgBlastToBenchling.SystemName | test/sequence_annotation/flows/mappers/igblast_to_benchling.py:56-59 | the two keys of `data_by_domain_system`, "IMGT" and "Kabat", which also suffix the field labels; `LabelsDistinct` and `LabelOutside` prove the labels of different systems never clash |
| SequenceAnnotationFlow.GetDnaSequencesAccounted | test/sequence/flows/sequence_annotation.py:35 | on validated events the DNA lookup step reports under its own name, accounts for each record once and passes on DNA sequence records |
| SequenceAnnotationFlow.GetSpeciesAccounted | test/sequence/flows/sequence_annotation.py:36 | on DNA sequence records the species step, when it returns, accounts for each record once and passes on species records |
| SequenceAnnotationFlow.ExecuteIgBlastAccounted | test/sequence/flows/sequence_annotation.py:37 | on species records the IgBLAST step, when it returns, accounts for each record once and passes on IgBLAST results |
| SequenceAnnotationFlow.ExecuteIgBlastName | test/sequence/flows/sequence_annotation.py:37 | the fourth entry of step_results is named after the IgBLAST step's results class |
| SequenceAnnotationFlow.ExecuteIgBlastPassesOn | test/sequence/flows/sequence_annotation.py:37-54 | a returned IgBLAST report counts every input once and lets through IgBLAST results only |
| SequenceAnnotationFlow.ExcludeStopCodonsAccounted | test/sequence/flows/sequence_annotation.py:38 | the stop-codon step accounts for each IgBLAST result once and passes on IgBLAST results |
| SequenceAnnotationFlow.CreateAaSequencesAccounted | test/sequence/flows/sequence_annotation.py:39 | the AA sequence step accounts for each IgBLAST result once and passes on AA sequence records |
| SequenceAnnotationFlow.FillTranslationsAccounted | test/sequence/flows/sequence_annotation.py:40 | the translation step, when it returns, accounts for each AA sequence record once and passes on translation records |
| SequenceAnnotationFlow.CreateGermlineAlignmentSequencesAccounted | test/sequence/flows/sequence_annotation.py:41 | the germline step, when it returns, accounts for each translation record once and passes on germline records |
| SequenceAnnotationFlow.CreateNucleotideTemplateAlignmentAccounted | test/sequence/flows/sequence_annotation.py:42 | the template alignment step accounts for each germline record once and produces template alignment results |
| SequenceAnnotationFlow.RunnerImplements | test/sequence/flows/sequence_annotation.py:33-43 | the step list runs each step on its position's records as that step's own specification says |
| SequenceAnnotationFlow.ImplementsAccounts | test/sequence/flows/sequence_annotation.py:33-54 | any runner of these steps accounts for every record at every position |
| SequenceAnnotationFlow.RunnerAccounts | test/sequence/flows/sequence_annotation.py:33-54 | the flow's own steps account for every record at every position |
| SequenceAnnotationFlow.StepAccounted | test/sequence/flows/sequence_annotation.py:33-54 | step k, given the class of records it takes, accounts for each once and passes on the class step k + 1 takes |
| SequenceAnnotationFlow.FlowStatus | test/sequence/flows/sequence_annotation.py:89-98 | FAILED with ERROR exactly when something failed and nothing succeeded; SUCCEEDED with SUCCESS exactly when nothing failed or warned; COMPLETED_WITH_WARNINGS with WARNING otherwise |
| SequenceAnnotationFlow.ProgressMessages | test/sequence/flows/sequence_annotation.py:50 | one message per executed step: its label, then the event count for the first step and the previous step's succeeded count for later ones |
| SequenceAnnotationFlow.ProgressMessagesAppend | test/sequence/flows/sequence_annotation.py:49-54 | running one more step adds exactly its label and the count of records it receives |
| SequenceAnnotationFlow.AccountsPassOn | test/sequence/flows/sequence_annotation.py:51-54 | a step that returns reports under its own name, counts each input once and passes on the next step's class |
| SequenceAnnotationFlow.RunFromStops | test/sequence/flows/sequence_annotation.py:49-57 | from a step on, at least one and at most the remaining steps run; all but the last let something through; the last lets nothing through unless it is the ninth |
| SequenceAnnotationFlow.RunFromNames | test/sequence/flows/sequence_annotation.py:49-54 | the results from step k on carry the names of steps k, k + 1 and so on |
| SequenceAnnotationFlow.RunFromConserves | test/sequence/flows/sequence_annotation.py:49-57 | every record entering step k ends as a warning, a failure or a record the last step let through |
| SequenceAnnotationFlow.ConsCounts | test/sequence/flows/sequence_annotation.py:53 | prepending a step's report adds its warnings and failures and keeps the last report |
| SequenceAnnotationFlow.RunFromLast | test/sequence/flows/sequence_annotation.py:49-57 | the records the last step lets through are template alignment results |
| SequenceAnnotationFlow.RunAllStops | test/sequence/flows/sequence_annotation.py:46-57 | step_results holds one to nine reports, the validation's first, all but the last letting something through and the last letting nothing through unless all nine ran |
| SequenceAnnotationFlow.RunAllNames | test/sequence/flows/sequence_annotation.py:46-54 | step_results carries the steps' result names in the fixed order |
| SequenceAnnotationFlow.RunAllConserves | test/sequence/flows/sequence_annotation.py:46-57 | every event ends as a warning, a failure or a record the last step let through |
| SequenceAnnotationFlow.RunAllLast | test/sequence/flows/sequence_annotation.py:46-57 | what the last executed step lets through is empty or template alignment results |
| SequenceAnnotationFlow.RunAllShaped | test/sequence/flows/sequence_annotation.py:46-57 | the loop's step_results has every property above at once |
| SequenceAnnotationFlow.FlowStepsShaped | test/sequence/flows/sequence_annotation.py:33-57 | the same for the flow started on the validation of the events |
| SequenceAnnotationFlow.FlowStepsShape | test/sequence/flows/sequence_annotation.py:33-57 | step_results has one entry per executed step, one to nine, in the fixed order starting with the validation, and the loop stops after the first step that lets nothing through and not before |
| SequenceAnnotationFlow.FlowConserves | test/sequence/flows/sequence_annotation.py:46-60 | in the merged results succeeded, warning and failed together count every event exactly once |
| SequenceAnnotationFlow.FlowSucceeded | test/sequence/flows/sequence_annotation.py:53-60 | the merged succeeded list is the last step's, non-empty only when all nine steps ran, and holds template alignment results only |
| SequenceAnnotationFlow.ShapedSucceeded | test/sequence/flows/sequence_annotation.py:53-60 | the same for any step list of that shape |
| SequenceAnnotationFlow.FlowStatusSpec | test/sequence/flows/sequence_annotation.py:60-98 | the session fails exactly when something failed and nothing succeeded, succeeds exactly when nothing failed or warned, and then every event succeeded |
| SequenceAnnotationFlow.RunGetDnaSequences | test/sequence/flows/sequence_annotation.py:35-51 | running the DNA lookup step's own loop gives its specified report |
| SequenceAnnotationFlow.RunGetSpecies | test/sequence/flows/sequence_annotation.py:36-51 | running the species step's own loop gives its specified report or exception |
| SequenceAnnotationFlow.RunExecuteIgBlast | test/sequence/flows/sequence_annotation.py:37-51 | running the IgBLAST step's own loop gives its specified report or exception |
| SequenceAnnotationFlow.RunExcludeStopCodons | test/sequence/flows/sequence_annotation.py:38-51 | running the stop-codon step's own loop gives its specified report or exception |
| SequenceAnnotationFlow.RunCreateAaSequences | test/sequence/flows/sequence_annotation.py:39-51 | running the AA sequence step's own loop gives its specified report |
| SequenceAnnotationFlow.RunFillTranslations | test/sequence/flows/sequence_annotation.py:40-51 | running the translation step's own loop gives its specified report or exception |
| SequenceAnnotationFlow.RunCreateGermlineAlignmentSequences | test/sequence/flows/sequence_annotation.py:41-51 | running the germline step's own loop gives its specified report or exception |
| SequenceAnnotationFlow.RunCreateNucleotideTemplateAlignment | test/sequence/flows/sequence_annotation.py:42-51 | running the template alignment step's own loop gives its specified report |
| SequenceAnnotationFlow.ExecuteStep | test/sequence/flows/sequence_annotation.py:49-51 | one turn of the loop runs the step at its position as the step list defines it |
| SequenceAnnotationFlow.RemainingStart | test/sequence/flows/sequence_annotation.py:46-47 | before the loop the flow is the validation's report followed by the steps still to run |
| SequenceAnnotationFlow.RemainingStep | test/sequence/flows/sequence_annotation.py:49-57 | a turn either raises the step's exception or records its report and moves on with what it let through |
| SequenceAnnotationFlow.RemainingEnd | test/sequence/flows/sequence_annotation.py:49-57 | once all steps ran or nothing got through, nothing is left to run |
| SequenceAnnotationFlow.LoopAdvance | test/sequence/flows/sequence_annotation.py:49-57 | one turn keeps the loop's invariant: messages, recorded reports and the class of the records handed on |
| SequenceAnnotationFlow.ExecuteSteps | test/sequence/flows/sequence_annotation.py:45-57 | the loop over the steps yields the specified step results and one progress message per executed step |
| SequenceAnnotationFlow.Execute | test/sequence/flows/sequence_annotation.py:30-74 | execute returns the merge of the specified step results, or the exception a step raised; it sends the progress messages and closes the session with the status and the completion message carrying the merged counts |
| SequenceAnnotationFlow.StepOf | test/sequence/flows/sequence_annotation.py:33-43 | the steps after the validation by position, in the order the `steps` list gives them, each run on its specification; `RunnerImplements` and `RunnerAccounts` prove each position runs its step and accounts for its inputs |
| SequenceAnnotationFlow.RunFrom | test/sequence/flows/sequence_annotation.py:49-57 | the loop from step `k` on: each result is appended, its succeeded list feeds the next step, an empty one ends the loop and an exception ends it at once; `RunFromStops`, `RunFromNames` and `RunFromConserves` prove where it stops, the names and the accounting |
| SequenceAnnotationFlow.RunAll | test/sequence/flows/sequence_annotation.py:46-57 | the whole loop once the validation has returned; `RunAllStops`, `RunAllNames`, `RunAllConserves` and `RunAllLast` prove one to nine results in the fixed name order with every event accounted for |
| SequenceAnnotationFlow.FlowSteps | test/sequence/flows/sequence_annotation.py:33-57 | `step_results` after the loop over the nine steps, starting from the events, or the exception a step raised; `FlowStepsShaped` and `FlowStepsShape` prove its shape |
| SequenceAnnotationFlow.FlowSpec | test/sequence/flows/sequence_annotation.py:30-74 | the results `execute` returns: the merge of `step_results`, or a step's exception; `FlowConserves` and `FlowSucceeded` prove every event ends succeeded, warned or failed, and that successes exist only when all nine steps ran |
| SequenceAnnotationFlow.ProgressMessage | test/sequence/flows/sequence_annotation.py:50 | the message sent before a step runs: its label, a space and the number of input records in parentheses; `ProgressMessages` proves one per executed step, with the right counts |
| SequenceAnnotationFlow.CompletionMessage | test/sequence/flows/sequence_annotation.py:69-72 | the completion message with the merged succeeded, warning and failed counts, in that order; `Execute` proves it is sent with the merged results' counts |
| SequenceAnnotationFlow.ClosingOf | test/sequence/flows/sequence_annotation.py:66-72 | the session status, the message style and the completion message the session is closed with; `FlowStatusSpec` proves the status against the counts |
| Values.Remove | test/sequence_annotation/flows/mappers/igblast_to_benchling.py:105 | replacing a character by nothing leaves none of it and drops exactly its occurrences |
| Values.RemoveAppend | test/sequence_annotation/flows/mappers/igblast_to_benchling.py:105 | removing a character distributes over concatenation |
| Values.Upper | test/sequence_annotation/flows/mappers/igblast_to_benchling.py:105 | upper-casing keeps the length and maps each lower-case ASCII letter to its capital |
| Models.RowGet | test/sequence_annotation/flows/mappers/igblast_to_benchling.py:61 | a missing column reads as None, a present one as its value |
| IgBlastToBenchling.RemoveFwr1 | test/sequence_annotation/flows/mappers/igblast_to_benchling.py:105 | fwr1 with w removed is fr1 |
| Dicts.MapBy | test/sequence/flows/steps/get_dna_sequences.py:32 | a dict comprehension `{key(x): x for x in xs}` whose order is not read: every element's key is present and each key maps to an element carrying it; `MapByLastWins` proves the last element with a key is the one kept |
| Values.Format | test/sequence_annotation/flows/steps/validate_events.py:65 | how an f-string renders an optional str: the text itself, or "None" for None |
| Values.Join | test/sequence_annotation/flows/steps/base.py:69 | `sep.join(parts)`: the parts with the separator between consecutive ones, empty for no parts; `GroupMessages` uses it with the line-break separator |
| Values.NatToString | test/sequence/flows/sequence_annotation.py:50 | `str(n)` of a count in an f-string: a non-empty string of decimal digits; `NatToStringValue` proves the digits denote `n` with no leading zero, which makes it the decimal rendering |
| Values.NatToStringValue | test/sequence/flows/sequence_annotation.py:50 | the digits of `NatToString(n)` read back as `n`, and only `0` starts with the digit zero, so the counts in the progress and completion messages are `str(n)` |
| Values.Truthy | test/sequence_annotation/flows/steps/validate_events.py:66 | Python's `bool(v)`, negated by `not source_clone`: None, an empty str and an empty list are false; any other str or list is true; a scalar keeps its recorded truthiness; `ErrorMessage` proves a supported sequence with a falsy Source: Clone gets the missing-field message |
| Wrappers.Collect | test/sequence_annotation/flows/steps/fill_translations.py:33-36 | a comprehension or loop that raises at the first element whose evaluation raises: the values in order, one per element, when none does; `CollectOk` and `CollectErr` prove both directions |

## Left out

- Session messages, logging and the `BenchlingAppSession` context manager are external sinks. The model returns the progress messages, and the session's closing status and completion message, as values of `SequenceAnnotationFlow.Execute`.
- `_report_errors` is not modelled, because it joins the distinct error messages of a Python `set`, whose order is not determined.
- `to_nucleotide_alignement_file` is not modelled. It is a base64 call (RFC 4648, section 4), and no modelled step calls it.
- The Benchling SDK and IgBLAST HTTP clients, TSV parsing, OAuth, rate limiting and task polling are external. Each is a function field of `Models.Services` whose result the caller chooses, and bulk tasks arrive already finished.
- Exceptions raised by service calls are not modelled. `getDnaSequencesById`, `getCustomEntitiesById`, `postSequencesSync`, `updateDnaSequences` and `createDnaSequences` are total functions. In the source those calls can raise: an SDK or HTTP error, the IgBLAST client's `ApiException` for a missing API key, or a TSV parse error. No step catches them, so they leave `execute` and the flow. Only `createAaSequence` and `createTemplateAlignment`, whose exceptions the steps catch, can fail in the model.
- GetSpecies.GetSpeciesErrors: lists the errors the step raises from its own code. An exception from `get_custom_entities_by_id` (get_species.py:68) is not among them, because service exceptions are not modelled.
- GetSpecies.GetSpeciesOkWhen: "does not raise" leaves out an exception from `get_custom_entities_by_id`, because service exceptions are not modelled.
- ExecuteIgBlast.RunOutcomesErr: lists the errors a run raises from its own code. Exceptions from `post_sequences_sync` (execute_igblast.py:35-36) and from parsing its TSV report are not among them, because service exceptions are not modelled.
- ExecuteIgBlast.ExecuteIgBlastErrors: leaves out the same IgBLAST call and parse exceptions, at step level.
- ExecuteIgBlast.ExecuteIgBlastOkWhen: "does not raise" leaves out exceptions from the IgBLAST call and its report parsing, because service exceptions are not modelled.
- ExcludeStopCodons.ExcludeStopCodonsOkIff: "raises exactly when" leaves out an exception from `update_dna_sequences` (exclude_stop_codons.py:45), because service exceptions are not modelled.
- The Lambda entry point `app.py` and its record grouping are not part of this model.
- The time measured with `process_time` is a float used only for logging and is left out.
- The 200-character truncation of session messages in the Benchling service is not modelled.
- The Python `re` engine is not modelled. `AaRegions.Detect` is specified instead by the placement the pattern `.*(f1).*(f2)…` finds: the greedy `.*` puts each fragment at its last possible position.
- AaRegions.Detect: requires amino acids without a line break, because `.` in the pattern does not match one. `IgBlastToBenchling.Search` returns a dedicated error for such input instead of modelling the regex engine's answer.
- SDK model classes are reduced to records holding only the attributes the core reads or writes. The order of Python dict keys is kept, with `Dicts.Dict`, only where the source's behaviour depends on it. Elsewhere a Dafny `map` is used.
- The step classes' `execute` methods are typed on the record class they take. The model uses one `Item` datatype for all classes and feeds a step records of another class by the error `OutOfOrder`. The lemmas `SequenceAnnotationFlow.RunnerAccounts` and `SequenceAnnotationFlow.RunFromNames` show that the flow never hits that error; the bulk steps' `NotCreated` and `NotFilled` are the same kind of guard.
- The message in `ValidateEvents` for a missing field renders the `(str, Enum)` key as its value (`Source: Clone`), as Python 3.10 formats it. Python 3.11 and later would print the member name.
- ExecuteIgBlast.KeyErrorText: writes `str(KeyError(species))` as the species between single quotes. That is Python's rendering only for species without quote or backslash characters.
- AsyncSteps.Process: the bulk steps use this version, which accepts only error indices 0..n-1 and raises the index error for any other. Python's `inputs[k]` also accepts -n <= k < 0: it fails that item and still queues it for retry. `AsyncSteps.ProcessAsWritten` keeps Python's indexing; see "## Findings".
- AsyncSteps.ExecuteSpec: is built on `AsyncSteps.Process`, so a bulk task reporting an error at a negative index raises here. `execute` as written fails that item and re-submits it until Python's recursion limit raises `RecursionError`. `FillTranslations.FillTranslationsSpec` and `CreateGermlineAlignmentSequences.CreateGermlineAlignmentSequencesSpec` inherit this.
- Integers are unbounded, as in Python; no width or wrap-around applies.

## Findings

| source | as written | input that shows it | evidently intended | confidence | as-written member | corrected member |
|---|---|---|---|---|---|---|
| test/sequence_annotation/flows/steps/base.py:91-95 | an error index is used both to read `items[index]`, which accepts negative indices, and to filter the retry list by position, which never matches a negative index; the item fails and is also retried, so the batch does not shrink and `execute` re-submits it until Python's recursion limit raises `RecursionError` | a bulk task whose `errors` is the dict `{-1: "bad"}`, submitted for one item | only indices `0 <= i < len(items)` name an item; any other index is rejected, so every retry batch is strictly smaller | not executed | AsyncSteps.NegativeIndexIsRetried | AsyncSteps.NegativeIndexIsRejected |

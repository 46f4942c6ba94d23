# KnowledgeDecomposer pipelines in Dafny

This project models the orchestration core of KnowledgeDecomposer: two
document pipelines that share one design. `localknow` turns a folder of
documents into a knowledge graph of concepts, first principles and
controversies. `intellidoc` classifies documents and extracts invoice data.
Both pipelines take the same path through a run:

1. validate the folder;
2. detect new or modified files against a fingerprint table;
3. drop the paths the checkpoint already lists;
4. build documents;
5. let the resource guardian admit, limit or skip each one;
6. drop semantic duplicates;
7. process the rest on a worker pool;
8. record each result's fingerprint and checkpoint every fifth success;
9. report, then clear the checkpoint.

The modules follow the source files.

- `Common` (shared by all modules): Option, the `Reply` of a model call (answer or raised exception), a JSON value, ASCII string helpers, sums.
- `Types` (localknow/types.py): documents, concepts, processing decisions and the `ProcessingPlan` class.
- `Versioning` (intellidoc/persist/versioning.py): the fingerprint table as a class over a map: `record_file` and `detect_changes`.
- `Checkpoint` (both orchestrators, `CheckpointManager`): the checkpoint file as the state of a class: save, load, clear.
- `Documents` (both orchestrators, `build_documents`): the document builder loop.
- `DomainGuardian` (intellidoc/core/domain_guardian.py): the resource monitor's history and worker rule, the cached domain classifier, the processing plan.
- `Monitor` (localknow/utils/monitor.py): the Apple-silicon monitor: history trimming, memory pressure, worker rule, callbacks.
- `Validators` (localknow/core/validators.py): the folder validator's rule cascade.
- `Dedup` (localknow/dedup/deduplicator.py): the batched semantic deduplicator and its vector-store upsert.
- `Chunker` (localknow/ingestion/chunker.py): boundary search, the chunk loop, chunk metadata, the chunk-size heuristic.
- `Extractor`, `JsonHelpers`, `Schemas`, `Classifier` (intellidoc/extract/*, intellidoc/utils/helpers.py): the extraction retry loop and prompt, layered JSON recovery, the invoice validators, the cached document classifier.
- `Resilience` (localknow/core/resilience.py): the circuit breaker as a class with an injected clock.
- `Concepts`, `Quality`, `Graph` (localknow/extract/concepts.py, localknow/core/quality.py, localknow/graph/builder.py): concept parsing and the consensus merge, the quality report, the knowledge-graph builder.
- `Aggregate` (localknow/pipeline/orchestrator.py:74-81): the by-lower-cased-key deduplication of aggregated results.
- `Admission` (both orchestrators, `main` up to the worker pool): the front half of a run: validate, detect, filter, build, plan, deduplicate.
- `KnowledgeDocument`, `KnowledgePipeline` (localknow/pipeline/orchestrator.py): `process_single_document` and the completion loop, checkpointing and report of `main`.
- `ExtractionPipeline` (intellidoc/pipeline/orchestrator.py): `process_document_path`, `process_single_document` and `main`.

Everything outside the program is a parameter. That covers:

- the file reader, stat, sizes and MIME guesses;
- SHA-256 and UUID version 5;
- the language-model and embedding clients, whose answers are `Reply` values so raised exceptions are modelled;
- cosine similarity;
- the psutil samples and the clock.

Objects the source updates in place are classes whose methods state their
whole new state. Each such method is proved equal to a specification function
over values, and the properties are lemmas about those functions. The thread
pool's `as_completed` loop takes any pending result next. A ghost sequence
records the arrival order, and the lemmas show which parts of the outcome do
not depend on it.

Some behaviours of the code are modelled as written, although its comments
or names suggest otherwise:

- `localknow` caps the pool at `min(2, recommendation)`. The recommendation is
  never below 2, so the pool always has 2 workers, or 1 above 75 percent
  memory (`KnowledgePipeline.WorkersAreOneOrTwo`).
- The guardian's plan never skips a document unless memory is critical, and
  then it skips all of them (`Admission.GuardianFilter`).
- The comment at localknow/pipeline/orchestrator.py:232 and
  intellidoc/pipeline/orchestrator.py:186 says a checkpoint is saved every 5
  documents. The code tests `processed % 5 == 0` after every completion, so
  every failure before the first success also saves
  (`KnowledgePipeline.FailuresBeforeFirstSuccessSave`).
- An errored `localknow` document, and every `intellidoc` document, is
  recorded with the digest of `""`. The next run therefore sees it as
  modified again (`KnowledgePipeline.ErrorIsSeenAsModified`,
  `ExtractionPipeline.ProcessedLooksModified`). A skipped `localknow`
  document keeps its real content.
- `computer_science` can never be returned by the domain classifier, because
  `_` is replaced by a space before the membership test.
- After the cooldown the circuit breaker resets its count to 0, so one more
  failure does not reopen it.
- The chunker's loop guard compares an offset with a chunk length.
- `intellidoc` creates a fresh classifier per document, so its cache never
  hits inside a run.
- `process_document_path` raises IndexError on an unreadable path.
- JSON `null` is treated as a parse failure.
- The second alternative of the formula-density regex can never match.
- Graph node attributes depend on completion order; the counters do not.

## Model

| member | source | states |
|---|---|---|
| Types.ProcessingPlan.AddFullProcessing | localknow/types.py:52-53 | appends exactly one `(path, full, None)` decision and keeps the earlier ones |
| Types.ProcessingPlan.AddLimitedProcessing | localknow/types.py:55-56 | appends exactly one `(path, limited, None)` decision and keeps the earlier ones |
| Types.ProcessingPlan.AddSkipProcessing | localknow/types.py:58-59 | appends exactly one `(path, skip, reason)` decision and keeps the earlier ones |
| Versioning.PartitionSplits | intellidoc/persist/versioning.py:39-55 | detect_changes fails iff the reader gives None for some path; otherwise each path is in exactly one list (the unchanged one iff its stored row still matches) and the two lists together are as long as the input; the row match is the predicate `IsUnchanged` |
| Versioning.Partition | intellidoc/persist/versioning.py:39-55 | when every path can be read, the new-or-modified list and the unchanged list together have exactly as many entries as paths were given |
| Versioning.UnknownPathIsNew | intellidoc/persist/versioning.py:47-49 | a path without a stored row is always new or modified |
| Versioning.VersionTracker.RecordFile | intellidoc/persist/versioning.py:30-37 | the row for the path becomes (mtime, size, digest of the content); every other row is untouched |
| Versioning.VersionTracker.DetectChanges | intellidoc/persist/versioning.py:39-55 | reads the table only; fails iff the reader fails on some path; otherwise returns exactly the partition, in input order |
| Versioning.PartitionPrefixFails | intellidoc/persist/versioning.py:45-46 | once the reader fails on a path, the whole call fails |
| Versioning.RecordedFileIsUnchanged | intellidoc/persist/versioning.py:30-54 | after record_file(p, c), with the same stat and the reader giving c again, p is reported unchanged and not changed |
| Checkpoint.LoadOf | localknow/pipeline/orchestrator.py:122-135 | load_checkpoint gives stored results iff the file was written; otherwise no paths |
| Checkpoint.LoadAfterSave | localknow/pipeline/orchestrator.py:112-132 | after save_checkpoint(P, R) loading gives back exactly P and R |
| Checkpoint.LoadWhenEmpty | localknow/pipeline/orchestrator.py:122-140 | a missing (cleared) or unreadable file loads as no paths and `{}` |
| Checkpoint.CheckpointManager.SaveCheckpoint | localknow/pipeline/orchestrator.py:112-120 | the file holds exactly the given paths and results; the save is appended to the save log |
| Checkpoint.CheckpointManager.LoadCheckpoint | localknow/pipeline/orchestrator.py:122-135 | returns the written state, or no paths and `{}` for a missing or corrupt file |
| Checkpoint.CheckpointManager.ClearCheckpoint | localknow/pipeline/orchestrator.py:137-140 | the file is absent afterwards; the save log is unchanged |
| Documents.DocumentFor | localknow/pipeline/orchestrator.py:31-38 | the document has the path, the reader's text, the uuid of the path and `{"path": p}` as metadata |
| Documents.Build | localknow/pipeline/orchestrator.py:26-39 | build_documents never returns more documents than paths |
| Documents.BuildKeepsReadable | localknow/pipeline/orchestrator.py:26-39 | the built documents are exactly those of the paths with non-empty text, no more documents than paths; `Documents.Build` is build_documents as a function |
| Documents.BuildAppend | localknow/pipeline/orchestrator.py:28-38 | input order is kept: building a concatenation concatenates the builds |
| Documents.BuildSingle | intellidoc/pipeline/orchestrator.py:22-35 | one path gives one document when its text is non-empty, none otherwise |
| Documents.BuildDocuments | intellidoc/pipeline/orchestrator.py:22-35 | the append loop returns exactly the documents of the readable paths in order |
| DomainGuardian.MaxOf | intellidoc/core/domain_guardian.py:37 | max of the per-core percentages is one of them and bounds all of them |
| DomainGuardian.StatsOf | intellidoc/core/domain_guardian.py:25-41 | the reported maximum core load is one of the sampled per-core percentages (over 100), and with non-negative samples the average lies between 0 and that maximum |
| DomainGuardian.StatsBounds | intellidoc/core/domain_guardian.py:25-41 | with percentages in [0, 100], memory and CPU fractions lie in [0, 1] and the average core load is at most the busiest core |
| DomainGuardian.Record | intellidoc/core/domain_guardian.py:43-46 | the history gains the new sample last and stays at most ten long, dropping the oldest first |
| DomainGuardian.SystemLoad | intellidoc/core/domain_guardian.py:50-57 | on Apple silicon the load is 0.7 × memory + 0.3 × CPU, elsewhere their maximum; either way it lies between the two fractions (so in [0, 1] when they are) |
| DomainGuardian.MemoryStage | intellidoc/core/domain_guardian.py:63-70 | memory above 0.8 halves the base but keeps at least 2; otherwise more than 16 GB available adds 2 up to 12; otherwise the base is kept; the result lies in [min(B, 2), max(B, 12)] |
| DomainGuardian.RecommendedWorkers | intellidoc/core/domain_guardian.py:59-79 | without sustained CPU above 0.85 over the last five of more than five samples the result is the memory stage; with it, one less but at least 2; so memory above 0.8 gives max(2, B // 2), more than 16 GB free min(12, B + 2), otherwise B, each less one under sustained CPU; always in [min(B, 2), max(B, 12)] |
| DomainGuardian.ResourceMonitor.GetDetailedStats | intellidoc/core/domain_guardian.py:25-48 | returns the stats of the sample and records (time, memory, CPU) in the bounded history |
| DomainGuardian.ResourceMonitor.GetSystemLoad | intellidoc/core/domain_guardian.py:50-57 | takes one sample (recorded in history) and returns its system load |
| DomainGuardian.ResourceMonitor.GetOptimalWorkers | intellidoc/core/domain_guardian.py:59-79 | takes one sample, then returns the recommendation for base 8 over the updated history, always between 2 and 12 |
| DomainGuardian.NormaliseDomain | intellidoc/core/domain_guardian.py:99-100 | the result is a known domain or "unknown", never contains '_' and so is never "computer_science" |
| DomainGuardian.ClassifyStep | intellidoc/core/domain_guardian.py:88-104 | a cached document gets its cached domain and leaves the cache alone; classification fails exactly when the document is not cached and the model raises; on success the answer is cached under the document id, and a fresh answer is a known domain or "unknown" |
| DomainGuardian.NoUnderscoreIsNotComputerScience | intellidoc/core/domain_guardian.py:13 | a string without '_' is not "computer_science" |
| DomainGuardian.DomainClassifier.Classify | intellidoc/core/domain_guardian.py:88-104 | a cached id returns its cached domain with no model call; otherwise one model call on the first 1500 characters, and the result is cached; a raising model leaves the cache as it was |
| DomainGuardian.ClassifyIsStable | intellidoc/core/domain_guardian.py:91-104 | classifying the same id again, with any model, returns the first answer and keeps the cache |
| DomainGuardian.DecisionFor | intellidoc/core/domain_guardian.py:129-137 | a classified document is never skipped; it is limited iff its domain is a medium one and memory is above 0.75 |
| DomainGuardian.PlanShape | intellidoc/core/domain_guardian.py:112-138 | one decision per document in input order; skip iff memory above 0.9; limited only for memory in (0.75, 0.9] |
| DomainGuardian.PlanSnoc | intellidoc/core/domain_guardian.py:122-137 | a plan over one more document is the plan over the others followed by one step from their cache |
| DomainGuardian.PlanLength | intellidoc/core/domain_guardian.py:122-137 | one decision per document |
| DomainGuardian.ShapeAt | intellidoc/core/domain_guardian.py:122-137 | the i-th decision names the i-th document's path; skip iff memory above 0.9; limited only in (0.75, 0.9] |
| DomainGuardian.EarlierDecision | intellidoc/core/domain_guardian.py:122-137 | deciding one more document leaves the earlier decisions unchanged |
| DomainGuardian.LastDecision | intellidoc/core/domain_guardian.py:122-137 | the decision added for the last document is shaped by its path and the memory reading |
| DomainGuardian.StepShape | intellidoc/core/domain_guardian.py:123-137 | a single document's decision names its path; skip iff memory above 0.9; limited only in (0.75, 0.9] |
| DomainGuardian.CriticalMemorySkipsAll | intellidoc/core/domain_guardian.py:122-125 | above 0.9 memory every document is skipped with "Critical memory pressure", nothing fails and the classifier cache is untouched |
| DomainGuardian.PlanForExtend | intellidoc/core/domain_guardian.py:122-137 | one more document adds exactly one decision step |
| DomainGuardian.PlanForFails | intellidoc/core/domain_guardian.py:127 | a classification that raises ends the whole call |
| DomainGuardian.PlanFor | intellidoc/core/domain_guardian.py:112-138 | above 90% memory a plan always exists and no classification is cached; every planning run keeps the entries already in the classification cache |
| DomainGuardian.ResourceGuardian.EnforceProcessingLimits | intellidoc/core/domain_guardian.py:112-138 | one stats sample, then the plan and classifier cache are exactly those of the decision fold; no model call under critical memory |
| DomainGuardian.ResourceGuardian.DecideAll | intellidoc/core/domain_guardian.py:122-137 | the decision loop produces exactly the fold over the documents |
| DomainGuardian.ResourceGuardian.Decide | intellidoc/core/domain_guardian.py:123-137 | the loop body appends exactly one decision for the document |
| Monitor.Newest | localknow/utils/monitor.py:130 | the last min(n, len) entries of the list |
| Monitor.Pressure | localknow/utils/monitor.py:123-132 | with no history the pressure is the current memory percentage over 100; when every percentage lies in 0..100 the pressure lies in 0..1 |
| Monitor.PressureBounds | localknow/utils/monitor.py:123-132 | memory pressure is a fraction between the smallest and largest percent it averages, divided by 100 |
| Monitor.PressureReadsNewestOnly | localknow/utils/monitor.py:129-132 | only the newest five samples decide the pressure |
| Monitor.BaseWorkers | localknow/utils/monitor.py:144-149 | Apple silicon starts from cores − 2, other systems from cores − 1, never below 2; so the base is at most max(2, cores) |
| Monitor.WorkerRule | localknow/utils/monitor.py:144-160 | pressure above 0.8 gives max(2, base // 2); pressure below 0.3 with more than 8 GB available gives min(cores, base + 2); any other reading keeps the base; the result lies in [min(2, cores), max(2, cores)] |
| Monitor.RemoveFirst | localknow/utils/monitor.py:120-121 | list.remove drops the first occurrence of the callback and keeps the rest in order |
| Monitor.RegisterThenUnregister | localknow/utils/monitor.py:114-121 | unregistering what was just registered restores the list |
| Monitor.WindowPercentBounds | localknow/utils/monitor.py:123-132 | when every sample's memory percentage lies in 0..100, so does their mean over the newest five samples |
| Monitor.AppleSiliconMonitor.RecordSample | localknow/utils/monitor.py:51-56 | the sample is appended and the history trimmed oldest-first to at most 100 |
| Monitor.AppleSiliconMonitor.GetOptimalWorkers | localknow/utils/monitor.py:134-160 | the worker rule on the sample's core count, available memory and the current pressure |
| Monitor.AppleSiliconMonitor.RegisterCallback | localknow/utils/monitor.py:114-116 | appends the callable, duplicates allowed |
| Monitor.AppleSiliconMonitor.UnregisterCallback | localknow/utils/monitor.py:118-121 | removes one occurrence when present, otherwise changes nothing |
| Validators.SplitExt | localknow/core/validators.py:32 | os.path.splitext's extension is empty or a single dot-led suffix of the name without further dots |
| Validators.Verdict | localknow/core/validators.py:33-56 | a file passes only if its size can be read, is positive and at most the size limit, and its extension is supported; an unreadable size always yields the unreadable issue |
| Validators.VerdictCascade | localknow/core/validators.py:33-56 | the five rules apply in order (unreadable, unsupported extension, empty, too large, unknown MIME) and the first failing one is the only verdict; a file passing all five is valid |
| Validators.DirFiles | localknow/core/validators.py:30-31 | one walked file per name of the directory, in listing order |
| Validators.ValidateAllSplits | localknow/core/validators.py:29-58 | every walked file ends in exactly one of valid_paths and issues |
| Validators.ValidateAll | localknow/core/validators.py:29-58 | the valid paths and the issues together have exactly one entry per walked file |
| Validators.ValidateAllCovers | localknow/core/validators.py:33-56 | a file passing every rule is listed as valid; a failing file is listed with its failure |
| Validators.ValidPathsAreAcceptable | localknow/core/validators.py:9-54 | a valid path has a supported extension, a size in (0, max_doc_bytes] and a known MIME type unless it is .md or .txt |
| Validators.ValidateAllAppend | localknow/core/validators.py:29-31 | both lists follow walk order, directory by directory |
| Validators.ValidateFolder | localknow/core/validators.py:25-58 | the nested loops return exactly the lists of the per-file check over the walk |
| Validators.ValidateDir | localknow/core/validators.py:30-56 | checking one directory's files extends the valid paths and issues exactly as the specification fold does for those files appended to the ones already seen |
| Validators.CheckFile | localknow/core/validators.py:32-56 | the inner loop body gives exactly the file's verdict |
| Dedup.VectorStore.Upsert | localknow/dedup/deduplicator.py:75 | the upsert call is appended to the store's log |
| Dedup.MaxSimilarity | localknow/dedup/deduplicator.py:29-30 | np.max of the similarities bounds them all and is one of them |
| Dedup.CheckSemanticSimilarity | localknow/dedup/deduplicator.py:26-30 | true iff some kept embedding is at least 0.85 similar (false with nothing kept) |
| Dedup.DedupFold | localknow/dedup/deduplicator.py:36-67 | never keeps more documents than it is given; kept documents, embeddings and positions stay aligned |
| Dedup.Step | localknow/dedup/deduplicator.py:56-67 | after one document the state rejects that document's content; the state is unchanged exactly when the document was already rejected; the kept list either stays as it was or gains exactly this document |
| Dedup.DedupFoldCoherent | localknow/dedup/deduplicator.py:56-67 | the kept documents are the input at increasing positions, each kept embedding is its document's, the hash set is exactly the kept hashes, and kept embeddings are pairwise below the threshold |
| Dedup.StepPositions | localknow/dedup/deduplicator.py:64-66 | one step keeps the kept list a subsequence of the input |
| Dedup.StepHashes | localknow/dedup/deduplicator.py:66-67 | one step keeps the hash set equal to the hashes of kept embeddings |
| Dedup.StepDissimilar | localknow/dedup/deduplicator.py:63-66 | one step keeps the kept embeddings pairwise below the threshold |
| Dedup.KeptArePairwiseDissimilar | localknow/dedup/deduplicator.py:30-67 | kept documents come in input order and no later kept one is 0.85-similar to an earlier one |
| Dedup.FirstDocumentKept | localknow/dedup/deduplicator.py:27-67 | the first document is always kept |
| Dedup.DedupFoldGrows | localknow/dedup/deduplicator.py:36-67 | the state after a prefix is a prefix of the final state; later kept documents come from later positions |
| Dedup.RejectsGrows | localknow/dedup/deduplicator.py:60-64 | an embedding rejected early stays rejected as the state grows |
| Dedup.SameContentKeptOnce | localknow/dedup/deduplicator.py:58-61 | of two documents with the same content the later one is never kept |
| Dedup.SeenIsRejected | localknow/dedup/deduplicator.py:58-67 | right after a document is processed its own embedding is rejected (by hash or by similarity 1 to a kept one) |
| Dedup.RejectedStaysRejected | localknow/dedup/deduplicator.py:41-67 | a rejection holds for the rest of the input |
| Dedup.NotKeptAt | localknow/dedup/deduplicator.py:60-64 | a document reached when its embedding is already rejected is not kept |
| Dedup.KeptUnlessRejected | localknow/dedup/deduplicator.py:56-67 | a document whose embedding is neither a seen hash nor 0.85-similar to a kept one when it is reached is kept |
| Dedup.DroppedIffRejected | localknow/dedup/deduplicator.py:56-67 | a document is dropped exactly when, at its turn, its hash was already seen or it is 0.85-similar to an earlier kept document |
| Dedup.Ids | localknow/dedup/deduplicator.py:71 | the ids list aligned with the kept documents |
| Dedup.Metadatas | localknow/dedup/deduplicator.py:73 | the metadata list aligned with the kept documents |
| Dedup.Contents | localknow/dedup/deduplicator.py:74 | the contents list aligned with the kept documents |
| Dedup.DetectSemanticDuplicates | localknow/dedup/deduplicator.py:32-77 | the batched loops give exactly the batch-free fold; empty input gives [] with no upsert; the store receives exactly one upsert of the kept documents' ids, embeddings, metadata and contents when something was kept, and none otherwise |
| Dedup.Upserted | localknow/dedup/deduplicator.py:68-75 | the deduplicator upserts nothing exactly when it kept nothing |
| Dedup.FoldSnoc | localknow/dedup/deduplicator.py:56-67 | the fold over one more document is one more step of the inner loop body |
| Dedup.KeptAreInput | localknow/dedup/deduplicator.py:56-67 | every kept document is one of the input documents |
| Dedup.StepGrows | localknow/dedup/deduplicator.py:56-67 | one document only appends to the kept lists and hash set, and what it appends carries its own position |
| Dedup.ScanBatch | localknow/dedup/deduplicator.py:41-67 | one batch of at most eight documents carries the fold from the batch's start to its end |
| Dedup.KeepIfNew | localknow/dedup/deduplicator.py:56-67 | the inner loop body (hash short-circuit, similarity scan, append) carries the fold over one more document |
| Dedup.UpsertIsAligned | localknow/dedup/deduplicator.py:70-75 | the k-th id, embedding and document of the upsert belong together |
| Chunker.RunEnd | localknow/ingestion/chunker.py:8-9 | the end of the whitespace run a `\s+` or `\s*` scan consumes lies between its start and the end of the text |
| Chunker.RunEndSkipsWhitespace | localknow/ingestion/chunker.py:8-9 | the run is all whitespace and stops at the end or at a non-whitespace character |
| Chunker.ParagraphBreaksWithin | localknow/ingestion/chunker.py:9-18 | every `\n\s*\n` match lies inside the searched region, in increasing order |
| Chunker.ParagraphBreaks | localknow/ingestion/chunker.py:9-18 | each paragraph break spans at least two characters and breaks do not overlap, so a region of n characters holds at most n/2 of them |
| Chunker.MatchesWithinCons | localknow/ingestion/chunker.py:18-25 | finditer's matches stay ordered and inside the region when one is put in front |
| Chunker.ParagraphBreaksAreNewlines | localknow/ingestion/chunker.py:9 | every paragraph-break match starts and ends with a newline |
| Chunker.NewlineBoundedCons | localknow/ingestion/chunker.py:9 | newline-bounded matches stay so when one is put in front |
| Chunker.SentenceEndsWithin | localknow/ingestion/chunker.py:8-25 | every `[.!?]\s+` match lies inside the searched region, in increasing order |
| Chunker.SentenceEnds | localknow/ingestion/chunker.py:8-25 | each sentence end (punctuation followed by whitespace) spans at least two characters and ends do not overlap, so a region of n characters holds at most n/2 of them |
| Chunker.Closest | localknow/ingestion/chunker.py:21-28 | min(..., key=distance) picks an index of the match list |
| Chunker.ClosestIsFirstNearest | localknow/ingestion/chunker.py:21-28 | the chosen match is nearest to the target, and the first such on ties |
| Chunker.FindBetterBoundary | localknow/ingestion/chunker.py:11-32 | the boundary lies within 50 of the target, and beyond the end of the text only when it is the target itself |
| Chunker.BoundaryPreference | localknow/ingestion/chunker.py:17-32 | a paragraph break nearest the target wins; only without one, the end of the sentence-end match whose start is nearest the target; only without either the target comes back |
| Chunker.Boundaries | localknow/ingestion/chunker.py:51 | the boundary finder moves a target end by at most 50 |
| Chunker.ChunksFromLayout | localknow/ingestion/chunker.py:42-61 | the chunks produced from an offset lie on the text as slices with increasing starts, no gaps, regular sizes and the last reaching the end; `Chunker.ChunksFrom` is the chunk loop as a function of the start offset and the chunk count, with `Chunker.NextStart` as its loop guard |
| Chunker.LayoutSingle | localknow/ingestion/chunker.py:45-48 | the last chunk, text[start:], is a layout on its own |
| Chunker.LayoutCons | localknow/ingestion/chunker.py:53-57 | a regular chunk in front of a layout that starts within it keeps the layout |
| Chunker.SlicesCons | localknow/ingestion/chunker.py:53 | a slice in front keeps every chunk a slice of the text |
| Chunker.AdvancingCons | localknow/ingestion/chunker.py:57-61 | a chunk in front keeps starts increasing with no gaps |
| Chunker.RegularSizesCons | localknow/ingestion/chunker.py:43-54 | a chunk within 50 of the base size in front keeps every non-final chunk so |
| Chunker.ChunkLayout | localknow/ingestion/chunker.py:34-63 | a text that fits is returned whole; otherwise the first chunk starts at 0, every chunk is a slice, starts strictly increase without gaps, non-final chunks are within 50 of the base size and the last is text[start:] |
| Chunker.Chunks | localknow/ingestion/chunker.py:34-63 | chunking always yields at least one chunk, and the first chunk is a prefix of the text |
| Chunker.ChunkLoopLast | localknow/ingestion/chunker.py:45-48 | the last iteration appends the rest of the text |
| Chunker.ChunkLoopStep | localknow/ingestion/chunker.py:50-61 | any other iteration appends the chunk up to the boundary and moves start forward |
| Chunker.Chunk | localknow/ingestion/chunker.py:34-63 | chunk() returns exactly the chunk list of the text |
| Chunker.ChunkLoop | localknow/ingestion/chunker.py:39-63 | the while loop produces exactly the chunk list from offset 0 and terminates |
| Chunker.AppendChunk | localknow/ingestion/chunker.py:50-61 | one loop pass keeps done-plus-remaining unchanged and strictly advances start, the guard comparing an offset with a length |
| Chunker.NextStartAdvances | localknow/ingestion/chunker.py:57-61 | the next chunk starts the overlap before the end of the one just added, or at that end; with a non-negative overlap shorter than the chunk it starts after the current start and no later than that end |
| Chunker.ChunkWithMetadata | localknow/ingestion/chunker.py:65-79 | the same chunks, each with its index, the total count and its own length |
| Chunker.FormulaCount | localknow/ingestion/chunker.py:84 | the number of `$ \ [ ]` characters, at most the sample length |
| Chunker.OptimalChunkSize | localknow/ingestion/chunker.py:81-91 | fails (ZeroDivisionError) iff the sample is empty; density above 0.1 gives max(1000, base // 3), above 0.05 up to 0.1 gives max(1500, base // 2), anything sparser the base |
| Chunker.FormulaDensity | localknow/ingestion/chunker.py:84 | the formula density of a non-empty sample lies in [0, 1] |
| Chunker.DenserSamplesGetSmallerChunks | localknow/ingestion/chunker.py:84-91 | a sample without formula characters keeps the base size; for base at least 1500 a denser sample never gets a larger size |
| Extractor.Assemble | intellidoc/extract/extractor.py:47-56 | the prompt opens with the introduction, always ends with "JSON Output:", and has the `Text:` block just before that cue when the text is non-empty |
| Extractor.TextOnlyAddsItsBlock | intellidoc/extract/extractor.py:52-53 | the text block is included iff the text is non-empty, and it is the only difference the text makes |
| Extractor.IntroTellsImage | intellidoc/extract/extractor.py:26-45 | the prompt opens with the vision introduction iff an image is provided |
| Extractor.GeneratePrompt | intellidoc/extract/extractor.py:26-56 | the prompt starts with the image or text-only introduction, ends with the JSON output cue, and a non-empty text appears as its block just before that cue |
| Extractor.Attempt | intellidoc/extract/extractor.py:66-92 | a returned result passed both validations; a retry happens only on a non-final attempt; one attempt never ends in the trailing error |
| Extractor.RunCalls | intellidoc/extract/extractor.py:63-92 | at most max_retries + 1 model calls (none when negative); the first gets the initial prompt and each later prompt extends the previous one |
| Extractor.Run | intellidoc/extract/extractor.py:65-94 | the model is asked at most once per remaining attempt, at least once exactly when attempts remain, and the first request is the original prompt |
| Extractor.TrailingRaise | intellidoc/extract/extractor.py:65-94 | with max_retries >= 0 the trailing ValueError is unreachable; with a negative value no call is made and it is raised |
| Extractor.ExtractedIsValid | intellidoc/extract/extractor.py:80-85 | a returned result validated as ExtractionResult and its extracted_data against the target schema |
| Extractor.TryOnce | intellidoc/extract/extractor.py:66-92 | one loop pass: the vision call iff the image path is non-empty, the JSON load and both validations, as the attempt step |
| Extractor.Extract | intellidoc/extract/extractor.py:58-94 | extract returns the outcome of the retry run on the generated prompt (vision introduction iff an image path is passed), with at most max_retries + 1 calls |
| Extractor.RunStep | intellidoc/extract/extractor.py:73-92 | a finished attempt ends the run; a retry continues it with the prompt extended by the note |
| Extractor.RetryLoop | intellidoc/extract/extractor.py:65-94 | the for loop gives exactly the run over attempts 0 .. max_retries and sends exactly its prompts |
| JsonHelpers.CleanerPrompt | intellidoc/utils/helpers.py:13-18 | the cleaner prompt holds the text verbatim between the fixed instructions and the closing cue |
| JsonHelpers.Sanitize | intellidoc/utils/helpers.py:7-25 | the cleaner's answer, or the original text when the cleaner raises |
| JsonHelpers.BracketSlice | intellidoc/utils/helpers.py:45-48 | a slice exists iff both '[' and ']' occur; a non-empty slice starts with '[' and ends with ']' and occurs in the text |
| JsonHelpers.RobustJsonLoad | intellidoc/utils/helpers.py:27-54 | when the direct parse succeeds its value is returned |
| JsonHelpers.DirectParseIgnoresCleaner | intellidoc/utils/helpers.py:32-35 | a successful direct parse makes the cleaner irrelevant |
| JsonHelpers.RaisingCleanerFallsBack | intellidoc/utils/helpers.py:23-52 | a raising cleaner leaves only the bracket slice of the original text to rescue it |
| JsonHelpers.StagesInOrder | intellidoc/utils/helpers.py:31-54 | the result is the first of direct parse, sanitized parse and bracket-slice parse that succeeds, and None iff every stage that runs fails |
| JsonHelpers.BracesAloneAreNotRescued | intellidoc/utils/helpers.py:45-47 | without both brackets in the sanitized text the last stage does not run and the result is None |
| Schemas.ValidateLineTotal | intellidoc/extract/schemas.py:11-26 | raises iff quantity and unit_price were validated and the total differs from their product by more than 0.02; otherwise returns the total |
| Schemas.Totals | intellidoc/extract/schemas.py:39 | the item totals, in order |
| Schemas.ValidateTotalAmount | intellidoc/extract/schemas.py:34-47 | raises iff line items are present and non-empty and the total differs from their sum by more than 0.02; otherwise returns the total |
| Schemas.LineTotalWindow | intellidoc/extract/schemas.py:22 | a line total is accepted exactly within 0.02 of quantity times unit price, both ends included |
| Schemas.InvoiceTotalWindow | intellidoc/extract/schemas.py:43 | an invoice total is accepted exactly within 0.02 of the sum of the item totals |
| Schemas.TotalsAppend | intellidoc/extract/schemas.py:39 | one more item adds its total to the sum |
| Schemas.ExactInvoicePasses | intellidoc/extract/schemas.py:5-47 | an invoice with exact line totals and the exact sum passes both validators |
| Classifier.Sample | intellidoc/extract/classifier.py:16 | the first 2000 characters, a prefix of the text |
| Classifier.Normalize | intellidoc/extract/classifier.py:20-24 | the stripped, lower-cased answer when it is a category, otherwise "other"; always a category |
| Classifier.LowercaseWordIsNormal | intellidoc/extract/classifier.py:20 | a lower-case word is its own stripped, lower-cased form |
| Classifier.NormalizeIdempotent | intellidoc/extract/classifier.py:20-24 | normalising a category again changes nothing |
| Classifier.CategoryIsNormal | intellidoc/extract/classifier.py:20-24 | each of the three category names is already in normal form |
| Classifier.StepInCategories | intellidoc/extract/classifier.py:23-27 | every answer is one of invoice, resume or other, and the cache keeps only categories |
| Classifier.Step | intellidoc/extract/classifier.py:13-27 | a cached document is answered from the cache; a model failure leaves the cache as it was; an answer is cached under the document id |
| Classifier.RepeatAgrees | intellidoc/extract/classifier.py:13-27 | after a successful call the cache holds the answer and a repeat call with any text and model returns it, cache unchanged |
| Classifier.SampleDecides | intellidoc/extract/classifier.py:16-17 | texts agreeing on their first 2000 characters are classified alike |
| Classifier.FailureIsNotCached | intellidoc/extract/classifier.py:20 | a raising model propagates the exception and caches nothing |
| Classifier.DocumentClassifier.Classify | intellidoc/extract/classifier.py:11-27 | a cache hit returns the cached category without a model call; otherwise one prompt is sent and the category is cached; the answer is always a category |
| Resilience.CallKeepsConsistent | localknow/core/resilience.py:6-44 | the breaker starts consistent and every call keeps the count within 0..3 with the circuit open exactly at 3 |
| Resilience.Call | localknow/core/resilience.py:18-44 | a call is rejected exactly when the breaker is open and the cooldown has not passed, and then the state is unchanged; a success resets the failure count; a failure re-raises the error, records its time and adds one to the failure count; the breaker's consistency is preserved |
| Resilience.AfterCooldown | localknow/core/resilience.py:25-28 | only an open circuit whose cooldown has passed changes, and then it is reset to the initial closed state with count 0; a circuit still open after the check is within the cooldown; consistency is preserved |
| Resilience.OpenRejects | localknow/core/resilience.py:25-31 | an open circuit rejects the call iff the cooldown of 60 seconds has not passed, and a rejection leaves the state unchanged |
| Resilience.ClosedCall | localknow/core/resilience.py:33-44 | a call that goes through returns the result with the count reset to 0, or re-raises with the count one higher, the failure time recorded and the circuit open from the third failure |
| Resilience.ResetForgetsFailures | localknow/core/resilience.py:25-42 | after a cooldown reset one failure leaves the circuit closed with count 1 instead of reopening it |
| Resilience.ConsecutiveFailuresOpen | localknow/core/resilience.py:38-42 | from a closed circuit exactly 3 - count consecutive failures open it and every shorter run leaves it closed |
| Resilience.CircuitBreaker.Wrap | localknow/core/resilience.py:18-44 | the wrapper's new state and result are those of one call; it keeps the breaker consistent |
| Concepts.TextField | localknow/extract/concepts.py:26-27 | str(c.get(key, "")).strip() is stripped, and empty when the key is missing |
| Concepts.ConfidenceField | localknow/extract/concepts.py:28 | a missing confidence defaults to 0.5 and a JSON number is taken as it is |
| Concepts.ItemConcept | localknow/extract/concepts.py:22-33 | an item yields a concept only if it is an object; name and description are stripped and sources empty |
| Concepts.MissingFieldsDefault | localknow/extract/concepts.py:26-29 | an object without the three fields reads as an unnamed concept of confidence 0.5 |
| Concepts.Items | localknow/extract/concepts.py:22 | iterating a number, boolean or null raises TypeError; lists, strings and objects iterate |
| Concepts.CollectShape | localknow/extract/concepts.py:21-34 | no more concepts than items, each from an object item with stripped text and no sources |
| Concepts.UnparseableGivesNothing | localknow/extract/concepts.py:16-20 | an unparseable reply gives no concepts; a model exception propagates |
| Concepts.Extract | localknow/extract/concepts.py:15-34 | the loop gives exactly _extract's result for the model's reply |
| Concepts.MergeAllWellFormed | localknow/extract/concepts.py:40-48 | the by_name keys are distinct, non-empty and in insertion order |
| Concepts.MergeAll | localknow/extract/concepts.py:40-48 | there are never more merged names than concepts given |
| Concepts.Values | localknow/extract/concepts.py:49 | the dict's values in key order |
| Concepts.FirstWithKey | localknow/extract/concepts.py:45-46 | the first concept with a given lower-cased name |
| Concepts.FirstWithKeyAppend | localknow/extract/concepts.py:41-46 | how the first occurrence of a name moves when a concept is appended |
| Concepts.MergeAllKeys | localknow/extract/concepts.py:41-46 | one entry per non-empty lower-cased name of the input and no other |
| Concepts.MergeAllEntry | localknow/extract/concepts.py:45-48 | each entry is the first concept with its name, with only the confidence changed |
| Concepts.MergeAllNamed | localknow/extract/concepts.py:42-46 | each entry is stored under its own lower-cased name |
| Concepts.MergeAllOrder | localknow/extract/concepts.py:40-49 | the output follows the first occurrence of each name over primary then validation results |
| Concepts.KeyPresent | localknow/extract/concepts.py:40-49 | a name has an entry after merging iff some merged concept carries it |
| Concepts.KeyListed | localknow/extract/concepts.py:40-49 | every listed name has an entry |
| Concepts.SingleOccurrenceUnchanged | localknow/extract/concepts.py:45-46 | a name seen once keeps its concept, confidence unclamped |
| Concepts.MergedConfidenceBounds | localknow/extract/concepts.py:47-48 | with inputs in [lo, hi] every merged confidence lies in [min(lo, 1), hi]: the running pairwise average with the 1.0 cap never leaves the range |
| Concepts.MergeStep | localknow/extract/concepts.py:42-48 | an unnamed concept changes nothing; a new name is appended to the key order with its concept; a repeated name keeps its stored concept and key order and only its confidence becomes min(1.0, (stored + new) / 2); every other entry is untouched |
| Concepts.ConfidencesOf | localknow/extract/concepts.py:41-48 | the confidences given for a name, in input order; empty exactly when no concept carries the name |
| Concepts.MergeAllConfidence | localknow/extract/concepts.py:39-48 | every merged confidence is the running capped average of the confidences given for its name, in input order: the first value, then each later one averaged in and capped at 1.0 |
| Concepts.TwiceAveraged | localknow/extract/concepts.py:47-48 | a name given exactly twice gets min(1.0, (first + second) / 2) |
| Concepts.MergedPairAverage | localknow/extract/concepts.py:39-48 | a name each list gives exactly once is merged into the first list's concept with the capped average of the two confidences |
| Concepts.ConsensusUniqueNames | localknow/extract/concepts.py:36-49 | the consensus has at most one concept per lower-cased name and none without a name |
| Concepts.ConsensusSpec | localknow/extract/concepts.py:36-49 | the consensus fails exactly when either extraction fails, reporting the primary failure first; otherwise it holds no more concepts than the two extractions together |
| Concepts.ConsensusAverages | localknow/extract/concepts.py:36-49 | a name each model reports exactly once appears in the consensus as the primary model's concept with the confidence min(1.0, (primary + validation) / 2) |
| Concepts.ExtractWithValidation | localknow/extract/concepts.py:36-49 | both extractions, then the merge: exactly the consensus, or the first exception |
| Concepts.MergeConcepts | localknow/extract/concepts.py:40-48 | the merge loop builds exactly the by_name dict of the concatenated lists |
| Quality.Confidences | localknow/core/quality.py:14 | the confidences, in order |
| Quality.LowConfidenceExact | localknow/core/quality.py:18 | the flagged concepts are exactly the input concepts below 0.6, no more than the input |
| Quality.LowConfidence | localknow/core/quality.py:18 | the flagged concepts are at most the concepts given and every one of them has confidence below 0.6 |
| Quality.LowConfidenceAppend | localknow/core/quality.py:18 | the filter keeps input order |
| Quality.CalculateQuality | localknow/core/quality.py:9-23 | empty input gives 0.0 and no flagged concepts; flagged concepts are exactly those below 0.6 |
| Quality.AverageBounds | localknow/core/quality.py:14-15 | before rounding the average is the mean of the confidences and lies between their bounds |
| Aggregate.ByKeyWellFormed | localknow/pipeline/orchestrator.py:79-81 | the dict comprehension's keys are distinct and exactly its entries' keys |
| Aggregate.Values | localknow/pipeline/orchestrator.py:79-81 | .values() in key order |
| Aggregate.FirstIndex | localknow/pipeline/orchestrator.py:79-81 | the first element with a key decides its position |
| Aggregate.LastIndex | localknow/pipeline/orchestrator.py:79-81 | the last element with a key decides its value |
| Aggregate.FirstIndexAppend | localknow/pipeline/orchestrator.py:79-81 | how the first occurrence of a key moves when an element is appended |
| Aggregate.ByKeyLastWins | localknow/pipeline/orchestrator.py:79-81 | a key is present iff some element has it, and its value is the last such element |
| Aggregate.ByKeyOrder | localknow/pipeline/orchestrator.py:79-81 | the keys follow the order of first occurrence |
| Aggregate.UniqueByKeyContents | localknow/pipeline/orchestrator.py:79-81 | one element per distinct key, each the last with its key, every input key covered |
| Aggregate.UniqueByKey | localknow/pipeline/orchestrator.py:79-81 | deduplicating by name never yields more items than were given |
| Aggregate.ByKeyListed | localknow/pipeline/orchestrator.py:79-81 | every listed key has an entry |
| Aggregate.UniqueByKeyCovers | localknow/pipeline/orchestrator.py:79-81 | every input element's key is represented in the aggregated list |
| Aggregate.ByKeyCount | localknow/pipeline/orchestrator.py:79-81 | no more distinct keys than elements |
| Graph.Names | localknow/graph/builder.py:11-39 | the node names a batch of entries adds |
| Graph.AddNodeEffect | localknow/graph/builder.py:13-19 | adding a node adds its name to the node set, leaves edges and every other node untouched, sets the given attributes and keeps the node's other stored attributes |
| Graph.AddNodesKeys | localknow/graph/builder.py:11-39 | adding nodes touches no edge, and the node set becomes the old nodes plus the names added |
| Graph.LastEntryWins | localknow/graph/builder.py:13-33 | re-adding a name updates the same node; its last entry's attributes hold afterwards |
| Graph.OtherNodesKept | localknow/graph/builder.py:11-39 | nodes no entry names keep their attributes |
| Graph.ConceptEntries | localknow/graph/builder.py:12-19 | one concept node entry per concept, in order |
| Graph.PrincipleEntries | localknow/graph/builder.py:22-29 | one principle node entry per principle, in order |
| Graph.ControversyEntries | localknow/graph/builder.py:32-39 | one controversy node entry per controversy, keyed by topic, viewpoints as JSON text |
| Graph.ConceptNodeAttributes | localknow/graph/builder.py:11-19 | after add_concepts a concept not repeated later has type "concept", its confidence, description and doc id |
| Graph.LinksFor | localknow/graph/builder.py:46-48 | at most one edge per principle for one concept |
| Graph.AddEdgeEffect | localknow/graph/builder.py:48 | adding an edge adds both endpoints and the edge, gives a new endpoint no attributes, keeps existing nodes and other edges untouched, and sets the given attributes on the edge |
| Graph.LinksForMembership | localknow/graph/builder.py:46-48 | an edge is listed for a concept iff some principle of that name explains it |
| Graph.LinksMembership | localknow/graph/builder.py:44-48 | an edge principle -> concept is listed iff the lower-cased concept name occurs in that principle's lower-cased rationale |
| Graph.LinksCount | localknow/graph/builder.py:44-48 | at most |concepts| * |principles| edges |
| Graph.Links | localknow/graph/builder.py:44-48 | there is at most one link per concept and principle pair |
| Graph.AddEdgesAppend | localknow/graph/builder.py:44-48 | adding a concatenation of edges adds the parts in turn |
| Graph.AddEdgesSnoc | localknow/graph/builder.py:48 | one more pair is one more add_edge |
| Graph.AddEdgesNodes | localknow/graph/builder.py:48 | adding edges removes no node, keeps node attributes and makes each endpoint a node |
| Graph.AddEdgeNodes | localknow/graph/builder.py:48 | one edge keeps every node with its attributes and makes both endpoints nodes |
| Graph.AddEdgesKeys | localknow/graph/builder.py:48 | adding edges removes no edge and adds exactly the listed ones |
| Graph.AddEdgesAttrs | localknow/graph/builder.py:48 | a listed edge carries the given attributes |
| Graph.DependencyEdges | localknow/graph/builder.py:41-48 | the new edges are exactly the explains pairs, each with rel "explains", at most |concepts| * |principles| of them; nothing is removed |
| Graph.KnowledgeBuilder.AddEntries | localknow/graph/builder.py:12-19 | the add_node loop gives exactly the node fold |
| Graph.KnowledgeBuilder.AddConcepts | localknow/graph/builder.py:11-19 | the graph gains exactly the concept nodes |
| Graph.KnowledgeBuilder.AddPrinciples | localknow/graph/builder.py:21-29 | the graph gains exactly the principle nodes |
| Graph.KnowledgeBuilder.AddControversies | localknow/graph/builder.py:31-39 | the graph gains exactly the controversy nodes |
| Graph.KnowledgeBuilder.LinkConcept | localknow/graph/builder.py:46-48 | the inner loop adds exactly the concept's explains edges |
| Graph.KnowledgeBuilder.MapDependencies | localknow/graph/builder.py:41-48 | the nested loops add exactly the explains edges |
| Admission.UnprocessedExact | localknow/pipeline/orchestrator.py:172 | a path is left to do iff it is among the changed paths and not in the checkpoint's processed set; never more paths than changed ones |
| Admission.UnprocessedAppend | intellidoc/pipeline/orchestrator.py:138 | the filter distributes over concatenation, so it keeps the changed paths' order |
| Admission.NothingProcessedKeepsAll | localknow/pipeline/orchestrator.py:172 | with an empty processed set every changed path is left to do |
| Admission.AdmittedAll | localknow/pipeline/orchestrator.py:189-190 | when every document's path is admitted the guardian filter keeps all documents in order |
| Admission.AdmittedNone | localknow/pipeline/orchestrator.py:189-190 | when no document's path is admitted the filter keeps none |
| Admission.GuardianFilter | intellidoc/pipeline/orchestrator.py:150-156 | whenever the plan is produced, the filtered documents are all of them, in order, when memory is at most 0.9 and none above it |
| Admission.Recommendation | intellidoc/pipeline/orchestrator.py:163 | the monitor's recommendation on the guardian's monitor is between 2 and 12 |
| Admission.AdmittedDocuments | localknow/pipeline/orchestrator.py:168-194 | every document handed to the workers has a path that changed, is not in the checkpoint and is readable; none when memory is critical; never more than the paths left to do |
| Admission.ReadyRecommendation | localknow/pipeline/orchestrator.py:197 | when documents reach the pool, the recommendation it is sized from is the monitor's recommendation at that point |
| Admission.Prepare | localknow/pipeline/orchestrator.py:167-197 | validate, detect, filter, build, plan, filter and deduplicate give exactly the front-half outcome function (crash, nothing new, or the admitted documents and the recommendation); the vector store gains exactly the deduplicator's upsert of the guardian's admitted documents, and nothing unless the front half is ready; `Admission.FrontOf` is the front-half outcome function it is proved equal to |
| Admission.FrontUpserts | localknow/dedup/deduplicator.py:68-75 | a ready front half's documents are the deduplicator's kept documents, and its upsert is one batch of their ids, embeddings, metadata and contents when there are any; a front half that stops early upserts nothing |
| Admission.FilterUnprocessed | intellidoc/pipeline/orchestrator.py:138 | the comprehension yields exactly the unprocessed changed paths |
| Admission.KeepAdmitted | intellidoc/pipeline/orchestrator.py:155-156 | the set and list comprehensions yield exactly the documents whose path has a non-skip decision |
| KnowledgeDocument.ChunkStep | localknow/pipeline/orchestrator.py:58-68 | a chunk that contributes a result contributes at least one concept |
| KnowledgeDocument.ChunkResultsShape | localknow/pipeline/orchestrator.py:56-68 | the loop collects at most one result per chunk and every collected result has concepts |
| KnowledgeDocument.ChunkResults | localknow/pipeline/orchestrator.py:56-68 | there is at most one result per chunk, and a failure is the failure of some chunk's extraction |
| KnowledgeDocument.NothingCollected | localknow/pipeline/orchestrator.py:59-60 | the loop ends with nothing and no exception iff no chunk yields concepts and none raises |
| KnowledgeDocument.EmptySnoc | localknow/pipeline/orchestrator.py:57-60 | the loop has collected nothing after one more chunk iff it had collected nothing before and that chunk's consensus is empty |
| KnowledgeDocument.StepNone | localknow/pipeline/orchestrator.py:58-60 | a chunk is skipped without raising iff its consensus is an empty list |
| KnowledgeDocument.ThrewPersists | localknow/pipeline/orchestrator.py:44-97 | once a prefix of the chunks raises, the whole loop raises with the same message |
| KnowledgeDocument.AllConceptsNonEmpty | localknow/pipeline/orchestrator.py:74 | chaining a non-empty list of results that each have concepts gives concepts |
| KnowledgeDocument.Process | localknow/pipeline/orchestrator.py:42-97 | every outcome carries the document's id and path |
| KnowledgeDocument.Aggregated | localknow/pipeline/orchestrator.py:74-94 | the aggregation is a success carrying the document's id, path and original content |
| KnowledgeDocument.Outcomes | localknow/pipeline/orchestrator.py:42-97 | an exception gives an error with its message and empty content; no collected result gives a skip with the real content; otherwise a success |
| KnowledgeDocument.SuccessIsAggregated | localknow/pipeline/orchestrator.py:70-94 | a success is exactly the aggregation of the chunk loop's results |
| KnowledgeDocument.AggregatedConceptsUnique | localknow/pipeline/orchestrator.py:79 | aggregated concepts have pairwise distinct lower-cased names, each comes from some chunk, and every chunk concept's key is represented |
| KnowledgeDocument.AggregatedPrinciplesAndControversiesUnique | localknow/pipeline/orchestrator.py:80-81 | aggregated principles and controversies have distinct lower-cased names and topics and come from the chunks |
| KnowledgeDocument.AggregatedQuality | localknow/pipeline/orchestrator.py:83-93 | with concepts in every result the success has at least one concept and its quality is the validation engine's average confidence of those concepts |
| KnowledgeDocument.SuccessQuality | localknow/pipeline/orchestrator.py:83-93 | every successful document has a concept and the engine's quality |
| KnowledgeDocument.ProcessChunk | localknow/pipeline/orchestrator.py:58-68 | one loop iteration computes exactly the chunk step |
| KnowledgeDocument.ProcessSingleDocument | localknow/pipeline/orchestrator.py:42-97 | the chunk loop followed by the outcome computes exactly the per-document function |
| KnowledgeDocument.CollectChunks | localknow/pipeline/orchestrator.py:56-68 | the chunk loop computes the chunk-loop function, stopping at the first chunk that raises |
| KnowledgeDocument.ChunkResultsAt | localknow/pipeline/orchestrator.py:57-68 | one more chunk runs that chunk's step after the others: an earlier exception stands, a new one ends the loop, no concepts adds nothing, otherwise one result is appended |
| KnowledgePipeline.SummaryTotals | localknow/pipeline/orchestrator.py:215-225 | after a batch each counter has grown by the successes' counts of concepts, principles and controversies and the successes' scores are appended in arrival order |
| KnowledgePipeline.TallyGrows | localknow/pipeline/orchestrator.py:215-225 | one result changes `Tally`'s summary only when it is a success, adding one processed document and one quality score; no counter decreases |
| KnowledgePipeline.SummaryGrows | localknow/pipeline/orchestrator.py:215-225 | the counters never decrease, the score list only grows, and a batch without successes leaves the summary unchanged |
| KnowledgePipeline.QualitiesTotals | localknow/pipeline/orchestrator.py:225 | the appended scores sum to the successes' qualities and number the successes |
| KnowledgePipeline.PathsOfSnoc | localknow/pipeline/orchestrator.py:213 | the paths of a batch are those of its prefix plus the last result's path |
| KnowledgePipeline.PathsOfPermutation | localknow/pipeline/orchestrator.py:211 | two arrival orders of the same results have the same paths |
| KnowledgePipeline.EveryResultRecorded | localknow/pipeline/orchestrator.py:227-231 | every result, success or not, marks its path processed and gives it a version row; other paths and rows are untouched |
| KnowledgePipeline.LastResultDecidesRow | localknow/pipeline/orchestrator.py:228 | a path's row holds the stat at record time and the digest of the last result's content |
| KnowledgePipeline.ErrorIsSeenAsModified | localknow/pipeline/orchestrator.py:97 | an errored document whose text digest differs from that of "" is detected as modified on the next run although it was recorded |
| KnowledgePipeline.ContentIsSeenAsUnchanged | localknow/pipeline/orchestrator.py:71 | a successful or skipped document is recorded with its text, so it is unchanged on the next run |
| KnowledgePipeline.SaveRule | localknow/pipeline/orchestrator.py:232-237 | a completion saves iff the processed count after it is a multiple of five, and the save holds the processed paths, summary and graph JSON at that moment |
| KnowledgePipeline.Complete | localknow/pipeline/orchestrator.py:212-237 | completing one document appends at most one checkpoint save and never drops earlier ones; a failed document leaves the summary and the graph unchanged |
| KnowledgePipeline.FailuresBeforeFirstSuccessSave | localknow/pipeline/orchestrator.py:232 | while the processed count is 0 every failed or skipped completion saves |
| KnowledgePipeline.SuccessesSaveEveryFifth | localknow/pipeline/orchestrator.py:232 | from a count of 0, n successes save exactly n/5 times |
| KnowledgePipeline.OrderIndependent | localknow/pipeline/orchestrator.py:211-231 | any arrival order of the same results gives the same counters, number and sum of scores, processed paths and set of version rows |
| KnowledgePipeline.CompleteAll | localknow/pipeline/orchestrator.py:211-237 | completing n documents appends at most n saves to the earlier ones and only ever adds to the processed paths |
| KnowledgePipeline.CountersIndependent | localknow/pipeline/orchestrator.py:221-224 | any arrival order gives the same processed, concept, principle and controversy counters |
| KnowledgePipeline.ScoresIndependent | localknow/pipeline/orchestrator.py:225 | any arrival order gives the same number and sum of quality scores |
| KnowledgePipeline.RecordsIndependent | localknow/pipeline/orchestrator.py:228-231 | any arrival order gives the same processed paths and the same set of version rows |
| KnowledgePipeline.FinalQualityIndependent | localknow/pipeline/orchestrator.py:239 | the final average quality is the same for every arrival order |
| KnowledgePipeline.WorkersAreOneOrTwo | localknow/pipeline/orchestrator.py:197-205 | with the monitor's recommendation the pool has 2 workers, or 1 when memory is above 75 percent |
| KnowledgePipeline.Workers | localknow/pipeline/orchestrator.py:197-205 | at most two workers are used, and at least one whenever the monitor recommends one or more |
| KnowledgePipeline.Results | localknow/pipeline/orchestrator.py:208 | one result per admitted document, each the per-document function of it |
| KnowledgePipeline.ResumeFromSave | localknow/pipeline/orchestrator.py:146-165 | loading a saved checkpoint restores its processed paths and summary, and its graph when the JSON round trip is lossless |
| KnowledgePipeline.Start | localknow/pipeline/orchestrator.py:146-165 | the loop starts from the checkpoint's processed paths; with no stored results it starts from the zero summary and the empty graph |
| KnowledgePipeline.RestoredGraph | localknow/pipeline/orchestrator.py:157-165 | the restored graph is the empty graph or exactly what the codec loads from the stored graph JSON |
| KnowledgePipeline.Absorb | localknow/pipeline/orchestrator.py:212-237 | one completion updates graph, summary, processed paths, version rows and saves exactly as the completion function; the file changes only when a save happens and then holds the last save |
| KnowledgePipeline.ExtendGraph | localknow/pipeline/orchestrator.py:216-219 | a successful document's concepts, principles, controversies and their links extend the builder's graph exactly as the graph specification says; `KnowledgePipeline.Extend` is that specification, the four calls as one function |
| KnowledgePipeline.Drain | localknow/pipeline/orchestrator.py:211-237 | the completions arrive in some order that is a permutation of the results, and the final state is the completion fold over that order |
| KnowledgePipeline.Run | localknow/pipeline/orchestrator.py:143-257 | a crash or early return leaves versions and checkpoint untouched; otherwise every admitted document's result is absorbed in some order, the pool has 1 or 2 workers, the report is computed from the final state and the checkpoint file is cleared; the vector store gains exactly the front half's upsert; the early return is `KnowledgePipeline.Early` (the stored results when non-empty, else the nothing-to-do message) |
| KnowledgePipeline.Pool | localknow/pipeline/orchestrator.py:196-254 | every admitted document's result is absorbed in some arrival order; the pool has the capped worker count; versions and checkpoint saves are those of the completion loop; the report comes from the final state and the checkpoint file is cleared; the report is `KnowledgePipeline.ReportOf` |
| ExtractionPipeline.Process | intellidoc/pipeline/orchestrator.py:42-74 | every outcome carries the document's id and path; the extraction call is `ExtractionPipeline.Extraction` and the error text of a failed extraction is `ExtractionPipeline.Reason` (extractor.py:78, 92, 94) |
| ExtractionPipeline.Outcomes | intellidoc/pipeline/orchestrator.py:42-74 | a classifier exception gives an error with empty content; a success has a category as type and extracted data iff the type is invoice, and that data passes the invoice schema; an extraction failure gives an error without content |
| ExtractionPipeline.RecordsNoContent | intellidoc/pipeline/orchestrator.py:182 | whatever the outcome, the version row is recorded with the digest of "", where `ExtractionPipeline.RecordedContent` is result.get("content", "") |
| ExtractionPipeline.Truthy | intellidoc/pipeline/orchestrator.py:178 | extracted data counts as a successful extraction exactly when it differs from the empty value of its own kind (null, false, zero, empty string, list or object) |
| ExtractionPipeline.ProcessPathOutcome | intellidoc/pipeline/orchestrator.py:37-40 | processing a path raises IndexError iff the reader gives no text for it, and otherwise processes its built document; `ExtractionPipeline.ProcessPath` is process_document_path |
| ExtractionPipeline.ProcessSingleDocument | intellidoc/pipeline/orchestrator.py:42-74 | computes exactly the per-document function |
| ExtractionPipeline.ProcessDocumentPath | intellidoc/pipeline/orchestrator.py:37-40 | computes exactly the per-path function |
| ExtractionPipeline.SummaryTotals | intellidoc/pipeline/orchestrator.py:176-179 | after a batch processed grows by the successes and successful_extractions by the successes with truthy data, and extractions never exceed processed |
| ExtractionPipeline.Tally | intellidoc/pipeline/orchestrator.py:176-179 | processed grows by one exactly for a success; successful_extractions never decreases and grows by no more than processed |
| ExtractionPipeline.OrderIndependent | intellidoc/pipeline/orchestrator.py:172-190 | any arrival order of the same results gives the same summary |
| ExtractionPipeline.CompleteAll | intellidoc/pipeline/orchestrator.py:172-190 | completing n documents appends at most n saves to the earlier ones and only ever adds to the processed paths |
| ExtractionPipeline.EveryPathRecordedEmpty | intellidoc/pipeline/orchestrator.py:182-185 | every result marks its path processed and gives it a row, and with no content the row holds the digest of "" |
| ExtractionPipeline.ProcessedLooksModified | intellidoc/pipeline/orchestrator.py:182 | a processed document whose text digest differs from that of "" is detected as modified on the next run |
| ExtractionPipeline.SaveRule | intellidoc/pipeline/orchestrator.py:186-190 | a completion saves iff the processed count after it is a multiple of five, holding the processed paths and summary |
| ExtractionPipeline.Complete | intellidoc/pipeline/orchestrator.py:173-190 | completing one document appends at most one checkpoint save and never drops earlier ones; a failed document leaves the summary unchanged |
| ExtractionPipeline.WorkersBetweenTwoAndFour | intellidoc/pipeline/orchestrator.py:163-165 | with the monitor's recommendation the pool has between 2 and 4 workers |
| ExtractionPipeline.Workers | intellidoc/pipeline/orchestrator.py:163-165 | at most four workers are used, and at least two whenever the monitor recommends two or more |
| ExtractionPipeline.Results | intellidoc/pipeline/orchestrator.py:169 | one result per admitted document, each the per-document function of it |
| ExtractionPipeline.Absorb | intellidoc/pipeline/orchestrator.py:173-190 | one completion updates summary, processed paths, version rows and saves exactly as the completion function; the file changes only when a save happens and then holds the last save |
| ExtractionPipeline.Drain | intellidoc/pipeline/orchestrator.py:172-190 | the completions arrive as a permutation of the results and the final state is the completion fold over that order |
| ExtractionPipeline.Run | intellidoc/pipeline/orchestrator.py:120-210 | a crash or early return leaves versions and checkpoint untouched; otherwise every admitted result is absorbed in some order, the pool has 2 to 4 workers, the report counts validated, changed and deduplicated files and the extractions, and the checkpoint file is cleared; the vector store gains exactly the front half's upsert; the early return is `ExtractionPipeline.Early` |
| ExtractionPipeline.Pool | intellidoc/pipeline/orchestrator.py:162-201 | every admitted result is absorbed in some arrival order; the pool has min(recommendation, 4) workers; versions and checkpoint saves are those of the completion loop; the report counts validated, changed, deduplicated files and extractions; the checkpoint file is cleared |
| Checkpoint.CheckpointManager.constructor | localknow/pipeline/orchestrator.py:103-106 | the manager starts on the folder's checkpoint file as it is on disk, with no saves yet |
| Classifier.DocumentClassifier.constructor | intellidoc/extract/classifier.py:7-9 | a new classifier has an empty cache and has sent no prompts |
| Dedup.VectorStore.constructor | intellidoc/storage/vectorstore.py:10-12 | a new store has received no upserts |
| DomainGuardian.ResourceMonitor.constructor | intellidoc/core/domain_guardian.py:20-23 | a new monitor has an empty history |
| DomainGuardian.DomainClassifier.constructor | intellidoc/core/domain_guardian.py:83-86 | a new domain classifier has an empty cache and has made no model calls |
| DomainGuardian.ResourceGuardian.constructor | intellidoc/core/domain_guardian.py:108-110 | a new guardian owns a fresh domain classifier and a fresh monitor, both empty |
| Graph.KnowledgeBuilder.constructor | localknow/graph/builder.py:8-9 | a new builder holds the empty directed graph |
| Monitor.AppleSiliconMonitor.constructor | localknow/utils/monitor.py:17-31 | a new monitor has no history and no callbacks |
| Resilience.CircuitBreaker.constructor | localknow/core/resilience.py:6-10 | the breaker starts closed with no failures and last failure time 0 |
| Types.ProcessingPlan.constructor | localknow/types.py:49-50 | the plan holds exactly the given decisions |
| Versioning.VersionTracker.constructor | intellidoc/persist/versioning.py:18-21 | the tracker starts on the existing files table |

## Left out

- File decoding (`read_any` and the PDF, DOCX, table and OCR parsers) and image preprocessing: the reader is a function `string -> Option<string>`.
- The vector store's chromadb and sentence-transformers backend: embedding, similarity and upsert are parameters, and upserts are logged on a `VectorStore` object.
- The thread pool: the completion order is an arbitrary permutation, drained one result at a time. Thread interleavings inside a document are not modelled.
- The monitor's background thread, `start`, `stop` and the invocation of callbacks; only registering and unregistering callbacks is modelled.
- psutil and os sampling: the sampled numbers are inputs.
- Pickle files, SQLite and the JSON report file (intellidoc/pipeline/orchestrator.py:203-207): stores are fields and maps.
- networkx `node_link_data` serialisation: graph JSON is a pair of functions, and a lossless round trip is a hypothesis of `KnowledgePipeline.ResumeFromSave`.
- SHA-256, UUID version 5 and the embedding hash: deterministic functions given as parameters.
- Floating point: `Decimal` and `float` are `real`; `round(..., 3)` and `np.round` are parameters.
- Unicode case mapping and whitespace: `lower`, `strip` and `\s` are modelled on ASCII only.
- `print` output and logging.
- Batch embedding: each batch is embedded by one encode call in the source; the model embeds each document on its own with the same embedder, so the batch boundaries only group the loop, and the result is proved equal to the batch-free fold.
- localknow/extract/principles.py and localknow/extract/controversy.py are not part of this model: their model calls and filters are folded into the extractor parameters of `KnowledgeDocument`.
- `ExtractionResult` is not defined in intellidoc/extract/schemas.py, so its validation is a parameter of the extractor.
- The `localknow` orchestrator imports its own domain guardian and version tracker, and the `intellidoc` orchestrator imports its own deduplicator and types. The `intellidoc` orchestrator also imports `intellidoc.core.validators.ContentValidator` (intellidoc/pipeline/orchestrator.py:11). None of those files is part of this model; both pipelines use the `DomainGuardian`, `Versioning`, `Dedup` and `Types` models, and the `intellidoc` pipeline runs the `localknow` `Validators` model.
- The API server, the UI and the configuration module; the configuration constants used (similarity threshold 0.85, document size limit, 8 pipeline workers) are constants of the model.
- Chunker.Chunk: requires base size greater than 50 plus the overlap, under which the loop provably advances; other settings are not modelled, and some of them loop forever in the source.
- Chunker.ChunkLoop: same precondition as `Chunker.Chunk`.
- Chunker.ChunkWithMetadata: same precondition as `Chunker.Chunk`.
- Chunker.ChunkLayout: states the layout only for settings under which the loop advances.


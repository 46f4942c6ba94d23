/** The document-extraction pipeline (intellidoc/pipeline/orchestrator.py):
    classify each admitted document, extract invoice data from invoices,
    and absorb the results one at a time in whatever order the workers
    finish. Its front half and checkpoint manager are the ones of the
    knowledge pipeline (modules Admission, Documents and Checkpoint). */
module ExtractionPipeline {
  import opened Common
  import opened Types
  import Classifier
  import Extractor
  import Documents
  import Checkpoint
  import Versioning
  import Admission
  import Dedup

  /** StructuredDataExtractor() retries twice by default. */
  const MaxRetries: int := 2

  const InvoiceType: string := "invoice"

  /** The messages of the extractor's two ValueErrors. */
  const NoJsonMessage: string := "Failed to extract valid JSON after multiple retries."
  const ExhaustedMessage: string := "Extraction failed after all retries."

  /** The per-document services: the classification model and its prompt
      template, the extraction collaborators, and the JSON schemas of
      Invoice and of the result wrapper. */
  datatype Services = Services(
    classifierModel: string -> Reply,
    template: string -> string,
    extraction: Extractor.Oracles,
    invoiceSchema: string,
    resultSchema: string)

  /** The result dictionary of process_single_document. A success has no
      "content" key; the extraction-error result has none either, and the
      outer handler's error has "content": "". */
  datatype DocResult =
    | Success(docId: string, path: string, docType: string, extractedData: Option<Json>)
    | Errored(reason: string, docId: string, path: string, content: Option<string>)

  /** str(e) of the exception an unsuccessful extraction raises. */
  function Reason(o: Extractor.Outcome): string
  {
    match o
    case Extracted(_, _) => []
    case InvalidJson => NoJsonMessage
    case ValidationFailed(error) => error
    case ModelRaised(message) => message
    case Exhausted => ExhaustedMessage
  }

  /** extractor.extract(doc.content, Invoice, image_path=doc.path). */
  function Extraction(doc: Document, s: Services): Extractor.Outcome
  {
    var prompt := Extractor.GeneratePrompt(Some(doc.content), s.invoiceSchema, s.resultSchema, true);
    Extractor.Run(s.extraction, Extractor.Loader(s.extraction), prompt, Some(doc.path), 0, MaxRetries).0
  }

  /** process_single_document, with a fresh classifier (empty cache). */
  function Process(doc: Document, s: Services): (r: DocResult)
    ensures r.docId == doc.documentId && r.path == doc.path
  {
    var reply := Classifier.Step(map[], doc.documentId, doc.content, s.classifierModel, s.template).0;
    if reply.Raised? then Errored(reply.message, doc.documentId, doc.path, Some([]))
    else if reply.text != InvoiceType then Success(doc.documentId, doc.path, reply.text, None)
    else
      var outcome := Extraction(doc, s);
      if outcome.Extracted? then Success(doc.documentId, doc.path, InvoiceType, Some(outcome.result))
      else Errored(Reason(outcome), doc.documentId, doc.path, None)
  }

  /** The three outcomes: a classifier exception is an error with content
      "", a non-invoice is a success without data, an invoice is a success
      with the validated extraction or an error without content. Every
      document type is one of the three categories. */
  lemma Outcomes(doc: Document, s: Services)
    ensures var r := Process(doc, s);
      var reply := Classifier.Step(map[], doc.documentId, doc.content, s.classifierModel, s.template).0;
      && (reply.Raised? ==> r == Errored(reply.message, doc.documentId, doc.path, Some([])))
      && (r.Success? ==> r.docType in Classifier.Categories)
      && (r.Success? ==> (r.extractedData.Some? <==> r.docType == InvoiceType))
      && (r.Success? && r.extractedData.Some? ==>
            Extraction(doc, s).Extracted? && r.extractedData.value == Extraction(doc, s).result
            && s.extraction.validateResult(Extraction(doc, s).result) == Extractor.Valid(Extraction(doc, s).data))
      && (r.Errored? && reply.Answer? ==> reply.text == InvoiceType && !Extraction(doc, s).Extracted? && r.content.None?)
  {
    Classifier.StepInCategories(map[], doc.documentId, doc.content, s.classifierModel, s.template);
    var prompt := Extractor.GeneratePrompt(Some(doc.content), s.invoiceSchema, s.resultSchema, true);
    Extractor.ExtractedIsValid(s.extraction, Extractor.Loader(s.extraction), prompt, Some(doc.path), 0, MaxRetries);
  }

  /** The false value of a JSON value's own kind: null, false, zero, the
      empty string, list or object. */
  function EmptyOfKind(j: Json): Json
  {
    match j
    case JNull => JNull
    case JBool(_) => JBool(false)
    case JNumber(_) => JNumber(0.0)
    case JString(_) => JString([])
    case JArray(_) => JArray([])
    case JObject(_) => JObject(map[])
  }

  /** Python truthiness of a JSON value. */
  predicate Truthy(j: Json)
    ensures Truthy(j) <==> j != EmptyOfKind(j)
  {
    match j
    case JNull => false
    case JBool(b) => b
    case JNumber(n) => n != 0.0
    case JString(t) => t != []
    case JArray(items) => items != []
    case JObject(fields) => fields != map[]
  }

  /** result.get("content", ""). */
  function RecordedContent(r: DocResult): string
  {
    if r.Errored? && r.content.Some? then r.content.value else []
  }

  /** Whatever happens to a document, the version row gets the digest of
      the empty string: no result carries the document's text. */
  lemma RecordsNoContent(doc: Document, s: Services)
    ensures RecordedContent(Process(doc, s)) == []
  {
  }

  /** How process_document_path ends. */
  datatype PathOutcome = Processed(result: DocResult) | IndexError

  /** process_document_path: build_documents([path])[0], then process it. */
  function ProcessPath(path: string, reader: string -> Option<string>, uuid: string -> string, s: Services): PathOutcome
  {
    var docs := Documents.Build([path], reader, uuid);
    if docs == [] then IndexError else Processed(Process(docs[0], s))
  }

  /** The path fails with IndexError exactly when the reader gives no text;
      otherwise it is the document built from that text. */
  lemma ProcessPathOutcome(path: string, reader: string -> Option<string>, uuid: string -> string, s: Services)
    ensures ProcessPath(path, reader, uuid, s).IndexError? <==> !Documents.Readable(path, reader)
    ensures Documents.Readable(path, reader) ==>
      ProcessPath(path, reader, uuid, s) == Processed(Process(Documents.DocumentFor(path, reader(path).value, uuid), s))
  {
    Documents.BuildSingle(path, reader, uuid);
  }

  /** process_single_document. */
  method ProcessSingleDocument(doc: Document, s: Services) returns (r: DocResult)
    ensures r == Process(doc, s)
  {
    var classifier := new Classifier.DocumentClassifier();
    var reply := classifier.Classify(doc.documentId, doc.content, s.classifierModel, s.template);
    if reply.Raised? {
      return Errored(reply.message, doc.documentId, doc.path, Some([]));
    }
    if reply.text != InvoiceType {
      return Success(doc.documentId, doc.path, reply.text, None);
    }
    var outcome, sent := Extractor.Extract(MaxRetries, doc.content, s.invoiceSchema, s.resultSchema, Some(doc.path), s.extraction);
    if outcome.Extracted? {
      return Success(doc.documentId, doc.path, InvoiceType, Some(outcome.result));
    }
    r := Errored(Reason(outcome), doc.documentId, doc.path, None);
  }

  /** process_document_path. */
  method ProcessDocumentPath(path: string, reader: string -> Option<string>, uuid: string -> string, s: Services)
    returns (o: PathOutcome)
    ensures o == ProcessPath(path, reader, uuid, s)
  {
    var docs := Documents.BuildDocuments([path], reader, uuid);
    if docs == [] {
      return IndexError;
    }
    var r := ProcessSingleDocument(docs[0], s);
    o := Processed(r);
  }

  // ------------------------------------------------------------- the loop

  /** The summary dictionary. */
  datatype Summary = Summary(processed: int, successfulExtractions: int)

  const InitialSummary: Summary := Summary(0, 0)

  /** The checkpoint's results dictionary: a summary, possibly missing. */
  datatype Stored = Stored(summary: Option<Summary>)

  /** The state the completion loop updates; `saves` is the checkpoint
      manager's log of saves. */
  datatype RunState = RunState(summary: Summary, processed: set<string>, files: map<string, Versioning.FileRow>,
                               saves: seq<(set<string>, Stored)>)

  /** A success counts as processed, and as an extraction when its data is
      truthy. */
  function Tally(s: Summary, r: DocResult): (t: Summary)
    ensures t.processed == s.processed <==> !r.Success?
    ensures s.processed <= t.processed <= s.processed + 1
    ensures s.successfulExtractions <= t.successfulExtractions
    ensures t.successfulExtractions - s.successfulExtractions <= t.processed - s.processed
  {
    if r.Success? then
      Summary(s.processed + 1, s.successfulExtractions + (if r.extractedData.Some? && Truthy(r.extractedData.value) then 1 else 0))
    else s
  }

  /** One completion of the as_completed loop. */
  function Complete(st: RunState, r: DocResult, env: Admission.Environment): (c: RunState)
    ensures st.saves <= c.saves && |c.saves| <= |st.saves| + 1
    ensures !r.Success? ==> c.summary == st.summary
  {
    var summary := Tally(st.summary, r);
    var processed := st.processed + {r.path};
    var row := Versioning.FileRow(env.stat(r.path).mtime, env.stat(r.path).size, env.digest(RecordedContent(r)));
    RunState(summary, processed, st.files[r.path := row],
             st.saves + (if summary.processed % 5 == 0 then [(processed, Stored(Some(summary)))] else []))
  }

  function CompleteAll(st: RunState, rs: seq<DocResult>, env: Admission.Environment): (c: RunState)
    ensures st.saves <= c.saves && |c.saves| <= |st.saves| + |rs|
    ensures st.processed <= c.processed
  {
    if rs == [] then st else Complete(CompleteAll(st, rs[..|rs| - 1], env), rs[|rs| - 1], env)
  }

  function SuccessCount(r: DocResult): int { if r.Success? then 1 else 0 }
  function ExtractionCount(r: DocResult): int { if r.Success? && r.extractedData.Some? && Truthy(r.extractedData.value) then 1 else 0 }

  /** successful_extractions <= processed, and neither is negative. */
  predicate Sound(s: Summary)
  {
    0 <= s.successfulExtractions <= s.processed
  }

  /** The counters after a batch are the successes and the truthy
      extractions added to the starting ones; a sound summary stays sound. */
  lemma {:induction false} SummaryTotals(st: RunState, rs: seq<DocResult>, env: Admission.Environment)
    ensures var s := CompleteAll(st, rs, env).summary;
      && s.processed == st.summary.processed + SumOf(rs, SuccessCount)
      && s.successfulExtractions == st.summary.successfulExtractions + SumOf(rs, ExtractionCount)
      && st.summary.processed <= s.processed
      && st.summary.successfulExtractions <= s.successfulExtractions
      && (Sound(st.summary) ==> Sound(s))
  {
    if rs != [] {
      SummaryTotals(st, rs[..|rs| - 1], env);
    }
  }

  /** The arrival order does not change the counters. */
  lemma OrderIndependent(st: RunState, a: seq<DocResult>, b: seq<DocResult>, env: Admission.Environment)
    requires multiset(a) == multiset(b)
    ensures CompleteAll(st, a, env).summary == CompleteAll(st, b, env).summary
  {
    SummaryTotals(st, a, env);
    SummaryTotals(st, b, env);
    SumOfPermutation(a, b, SuccessCount);
    SumOfPermutation(a, b, ExtractionCount);
  }

  /** Every result marks its path processed and gives it a row holding the
      digest of "", whatever its status. */
  lemma {:induction false} EveryPathRecordedEmpty(st: RunState, rs: seq<DocResult>, env: Admission.Environment, i: int)
    requires 0 <= i < |rs|
    ensures rs[i].path in CompleteAll(st, rs, env).processed
    ensures rs[i].path in CompleteAll(st, rs, env).files
    ensures (forall k :: 0 <= k < |rs| ==> RecordedContent(rs[k]) == []) ==>
      CompleteAll(st, rs, env).files[rs[i].path].contentHash == env.digest([])
  {
    var init := rs[..|rs| - 1];
    if i < |init| {
      assert init[i] == rs[i];
      EveryPathRecordedEmpty(st, init, env, i);
    }
  }

  /** So a processed document whose text has a different digest from ""
      is found modified by the next run. */
  lemma ProcessedLooksModified(st: RunState, doc: Document, s: Services, env: Admission.Environment)
    requires env.digest(doc.content) != env.digest([])
    ensures !Versioning.IsUnchanged(Complete(st, Process(doc, s), env).files, doc.path, env.stat(doc.path), env.digest(doc.content))
  {
    RecordsNoContent(doc, s);
  }

  /** A completion saves iff the success count after it is a multiple of
      five; while nothing has succeeded every completion saves. */
  lemma SaveRule(st: RunState, r: DocResult, env: Admission.Environment)
    ensures var next := Complete(st, r, env);
      && (|next.saves| == |st.saves| + 1 <==> next.summary.processed % 5 == 0)
      && (|next.saves| == |st.saves| + 1 ==> next.saves[|st.saves|] == (next.processed, Stored(Some(next.summary))))
      && next.saves[..|st.saves|] == st.saves
      && (st.summary.processed == 0 && !r.Success? ==> |next.saves| == |st.saves| + 1)
  {
  }

  /** min(recommendation, 4). */
  function Workers(recommendation: int): (w: int)
    ensures w <= 4
    ensures recommendation >= 2 ==> w >= 2
  {
    Min(recommendation, 4)
  }

  /** With the monitor's recommendation the pool has two to four workers. */
  lemma WorkersBetweenTwoAndFour(env: Admission.Environment)
    requires Admission.Sampled(env)
    ensures 2 <= Workers(Admission.Recommendation(env)) <= 4
  {
  }

  function Results(docs: seq<Document>, s: Services): (rs: seq<DocResult>)
    ensures |rs| == |docs| && forall i :: 0 <= i < |docs| ==> rs[i] == Process(docs[i], s)
  {
    seq(|docs|, i requires 0 <= i < |docs| => Process(docs[i], s))
  }

  /** How main ends. */
  datatype Outcome =
    | Crashed
    | StoredResults(results: Stored)
    | NothingToDo
    | Report(filesValidated: int, filesChanged: int, filesProcessedAfterDedup: int, successfulExtractions: int)

  function Early(l: Checkpoint.Loaded<Stored>): Outcome
  {
    if l.results.Some? && l.results.value.summary.Some? then StoredResults(l.results.value) else NothingToDo
  }

  function StartSummary(l: Checkpoint.Loaded<Stored>): Summary
  {
    if l.results.Some? && l.results.value.summary.Some? then l.results.value.summary.value else InitialSummary
  }

  /** One completion, applied to the real objects. */
  method Absorb(r: DocResult, env: Admission.Environment, vt: Versioning.VersionTracker,
                cm: Checkpoint.CheckpointManager<Stored>, summary: Summary, processed: set<string>)
    returns (summary': Summary, processed': set<string>)
    modifies vt, cm
    ensures RunState(summary', processed', vt.files, cm.saves)
         == Complete(RunState(summary, processed, old(vt.files), old(cm.saves)), r, env)
    ensures cm.saves == old(cm.saves) ==> cm.file == old(cm.file)
    ensures cm.saves != old(cm.saves) ==> cm.file == Checkpoint.Written(cm.saves[|cm.saves| - 1].0, cm.saves[|cm.saves| - 1].1)
  {
    summary' := summary;
    if r.Success? {
      var extracted := if r.extractedData.Some? && Truthy(r.extractedData.value) then 1 else 0;
      summary' := Summary(summary.processed + 1, summary.successfulExtractions + extracted);
    }
    var content := if r.Errored? && r.content.Some? then r.content.value else [];
    vt.RecordFile(r.path, content, env.stat(r.path), env.digest);
    processed' := processed + {r.path};
    if summary'.processed % 5 == 0 {
      cm.SaveCheckpoint(processed', Stored(Some(summary')));
    }
  }

  /** The as_completed loop; `done` is the order the results arrived in. */
  method Drain(results: seq<DocResult>, env: Admission.Environment, vt: Versioning.VersionTracker,
               cm: Checkpoint.CheckpointManager<Stored>, summary: Summary, processed: set<string>)
    returns (summary': Summary, processed': set<string>, ghost done: seq<DocResult>)
    modifies vt, cm
    ensures multiset(done) == multiset(results)
    ensures RunState(summary', processed', vt.files, cm.saves)
         == CompleteAll(RunState(summary, processed, old(vt.files), old(cm.saves)), done, env)
  {
    ghost var st0 := RunState(summary, processed, vt.files, cm.saves);
    var pending := results;
    summary', processed', done := summary, processed, [];
    while pending != []
      invariant multiset(done) + multiset(pending) == multiset(results)
      invariant RunState(summary', processed', vt.files, cm.saves) == CompleteAll(st0, done, env)
      decreases |pending|
    {
      var j :| 0 <= j < |pending|;
      var r := pending[j];
      assert pending == pending[..j] + [r] + pending[j + 1..];
      pending := pending[..j] + pending[j + 1..];
      summary', processed' := Absorb(r, env, vt, cm, summary', processed');
      assert (done + [r])[..|done|] == done;
      done := done + [r];
    }
  }

  /** main. The checkpoint manager, version tracker and vector store stand
      for state that outlives a run. `workers` is the pool size (0 when no
      pool is started); `done` is the order in which results arrived. */
  method Run(env: Admission.Environment, s: Services,
             cm: Checkpoint.CheckpointManager<Stored>, vt: Versioning.VersionTracker, vs: Dedup.VectorStore)
    returns (outcome: Outcome, workers: int, ghost done: seq<DocResult>)
    requires Admission.Sampled(env)
    modifies cm, vt, vs
    ensures var l := Checkpoint.LoadOf(old(cm.file));
      var front := Admission.FrontOf(env, old(vt.files), l.processedPaths);
      && (front.ReaderFailed? || front.GuardianFailed? ==>
            outcome == Crashed && vt.files == old(vt.files) && cm.file == old(cm.file) && cm.saves == old(cm.saves))
      && (front.NothingNew? ==>
            outcome == Early(l) && vt.files == old(vt.files) && cm.file == old(cm.file) && cm.saves == old(cm.saves))
      && (front.Ready? ==>
            var final := CompleteAll(RunState(StartSummary(l), l.processedPaths, old(vt.files), old(cm.saves)), done, env);
            && multiset(done) == multiset(Results(front.uniqueDocs, s))
            && workers == Workers(front.recommendation)
            && 2 <= workers <= 4
            && outcome == Report(front.validated, |front.changed|, |front.uniqueDocs|, final.summary.successfulExtractions)
            && vt.files == final.files
            && cm.saves == final.saves
            && cm.file == Checkpoint.Absent)
    ensures var l := Checkpoint.LoadOf(old(cm.file));
      vs.upserts == old(vs.upserts) + Dedup.Upserted(Dedup.DedupFold(Admission.DedupInput(env, old(vt.files), l.processedPaths), env.embedder))
  {
    var l := cm.LoadCheckpoint();
    var summary := StartSummary(l);
    var front := Admission.Prepare(env, vt, l.processedPaths, vs);
    workers, done := 0, [];
    if front.ReaderFailed? || front.GuardianFailed? {
      return Crashed, workers, done;
    }
    if front.NothingNew? {
      return Early(l), workers, done;
    }
    Admission.ReadyRecommendation(env, vt.files, l.processedPaths);
    WorkersBetweenTwoAndFour(env);
    outcome, workers, done := Pool(front, env, s, vt, cm, summary, l.processedPaths);
  }

  /** The worker pool after the front half: the pool size, one result per
      admitted document, the completion loop, the report and the final
      clear_checkpoint. */
  method Pool(front: Admission.Front, env: Admission.Environment, s: Services,
              vt: Versioning.VersionTracker, cm: Checkpoint.CheckpointManager<Stored>,
              summary: Summary, processed: set<string>)
    returns (outcome: Outcome, workers: int, ghost done: seq<DocResult>)
    requires front.Ready?
    modifies vt, cm
    ensures var final := CompleteAll(RunState(summary, processed, old(vt.files), old(cm.saves)), done, env);
      && multiset(done) == multiset(Results(front.uniqueDocs, s))
      && workers == Workers(front.recommendation)
      && outcome == Report(front.validated, |front.changed|, |front.uniqueDocs|, final.summary.successfulExtractions)
      && vt.files == final.files
      && cm.saves == final.saves
      && cm.file == Checkpoint.Absent
  {
    workers := Min(front.recommendation, 4);
    var results := Results(front.uniqueDocs, s);
    var summary', processed';
    summary', processed', done := Drain(results, env, vt, cm, summary, processed);
    outcome := Report(front.validated, |front.changed|, |front.uniqueDocs|, summary'.successfulExtractions);
    cm.ClearCheckpoint();
  }
}

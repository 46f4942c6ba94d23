/** The front half of both orchestrators' `main`
    (localknow/pipeline/orchestrator.py:167-194 and
    intellidoc/pipeline/orchestrator.py:133-160): validate the folder, find
    the new or modified files, drop those the checkpoint already lists,
    build the documents, ask the resource guardian for a plan, keep the
    documents it does not skip and deduplicate them. */
module Admission {
  import opened Common
  import opened Types
  import Versioning
  import Validators
  import Documents
  import DomainGuardian
  import Dedup

  /** Everything the front half reads from the outside world: the folder
      walk and file probes, the file stat / reader / sha256 used for
      versioning, uuid5 of a path, the machine sample and clock reading
      taken by the guardian, the domain model, and the embedder oracles. */
  datatype Environment = Environment(
    walk: seq<Validators.WalkEntry>,
    getsize: string -> Option<int>,
    guessType: string -> Option<string>,
    stat: string -> Versioning.FileStat,
    reader: string -> Option<string>,
    digest: string -> string,
    uuid: string -> string,
    isAppleSilicon: bool,
    planSample: DomainGuardian.RawSample,
    planTime: real,
    domainModel: string -> Reply,
    workerSample: DomainGuardian.RawSample,
    workerTime: real,
    embedder: Dedup.Oracles)

  /** Both machine samples have at least one CPU reading. */
  predicate Sampled(env: Environment)
  {
    env.planSample.cpuPercents != [] && env.workerSample.cpuPercents != []
  }

  /** The valid paths of the folder, in walk order. */
  function ValidPaths(env: Environment): seq<string>
  {
    Validators.ValidateAll(Validators.WalkFiles(env.walk), Validators.FolderCheck(env.getsize, env.guessType)).0
  }

  /** `[p for p in new_or_modified if p not in processed_paths]`. */
  function Unprocessed(paths: seq<string>, processed: set<string>): seq<string>
  {
    if paths == [] then []
    else
      var p := paths[|paths| - 1];
      Unprocessed(paths[..|paths| - 1], processed) + (if p in processed then [] else [p])
  }

  /** A path is left to do iff it changed and the checkpoint does not list
      it; there are never more of them than changed paths. */
  lemma {:induction false} UnprocessedExact(paths: seq<string>, processed: set<string>)
    ensures forall p :: p in Unprocessed(paths, processed) <==> p in paths && p !in processed
    ensures |Unprocessed(paths, processed)| <= |paths|
  {
    if paths != [] {
      UnprocessedExact(paths[..|paths| - 1], processed);
      assert paths == paths[..|paths| - 1] + [paths[|paths| - 1]];
    }
  }

  /** The filter keeps the order of the changed paths. */
  lemma {:induction false} UnprocessedAppend(a: seq<string>, b: seq<string>, processed: set<string>)
    ensures Unprocessed(a + b, processed) == Unprocessed(a, processed) + Unprocessed(b, processed)
  {
    if b == [] {
      assert a + b == a;
    } else {
      assert (a + b)[..|a + b| - 1] == a + b[..|b| - 1];
      UnprocessedAppend(a, b[..|b| - 1], processed);
    }
  }

  /** With an empty checkpoint nothing is filtered out. */
  lemma {:induction false} NothingProcessedKeepsAll(paths: seq<string>)
    ensures Unprocessed(paths, {}) == paths
  {
    if paths != [] {
      NothingProcessedKeepsAll(paths[..|paths| - 1]);
      assert paths == paths[..|paths| - 1] + [paths[|paths| - 1]];
    }
  }

  /** `{d.path for d in decisions if d.action != "skip"}`. */
  function AdmittedPaths(decisions: seq<ProcessingDecision>): set<string>
  {
    set i | 0 <= i < |decisions| && decisions[i].action != Skip :: decisions[i].path
  }

  /** `[doc for doc in docs if doc.path in admitted]`. */
  function Admitted(docs: seq<Document>, admitted: set<string>): seq<Document>
  {
    if docs == [] then []
    else
      var d := docs[|docs| - 1];
      Admitted(docs[..|docs| - 1], admitted) + (if d.path in admitted then [d] else [])
  }

  /** When every document's path is admitted, nothing is dropped. */
  lemma {:induction false} AdmittedAll(docs: seq<Document>, admitted: set<string>)
    requires forall i :: 0 <= i < |docs| ==> docs[i].path in admitted
    ensures Admitted(docs, admitted) == docs
  {
    if docs != [] {
      AdmittedAll(docs[..|docs| - 1], admitted);
      assert docs == docs[..|docs| - 1] + [docs[|docs| - 1]];
    }
  }

  /** When no document's path is admitted, everything is dropped. */
  lemma {:induction false} AdmittedNone(docs: seq<Document>, admitted: set<string>)
    requires forall i :: 0 <= i < |docs| ==> docs[i].path !in admitted
    ensures Admitted(docs, admitted) == []
  {
    if docs != [] {
      AdmittedNone(docs[..|docs| - 1], admitted);
    }
  }

  /** The guardian's plan admits all documents, in order, unless memory is
      critical, when it admits none: the domain only shapes the reason. */
  lemma GuardianFilter(docs: seq<Document>, memory: real, cache: map<string, string>, generate: string -> Reply)
    requires DomainGuardian.PlanFor(docs, memory, cache, generate).Some?
    ensures var decisions := DomainGuardian.PlanFor(docs, memory, cache, generate).value.0;
      Admitted(docs, AdmittedPaths(decisions)) == if memory > 0.9 then [] else docs
  {
    var decisions := DomainGuardian.PlanFor(docs, memory, cache, generate).value.0;
    DomainGuardian.PlanShape(docs, memory, cache, generate);
    if memory > 0.9 {
      assert AdmittedPaths(decisions) == {};
      AdmittedNone(docs, AdmittedPaths(decisions));
    } else {
      forall i | 0 <= i < |docs|
        ensures docs[i].path in AdmittedPaths(decisions)
      {
        assert decisions[i].action != Skip;
      }
      AdmittedAll(docs, AdmittedPaths(decisions));
    }
  }

  /** How the front half ends. */
  datatype Front =
    | ReaderFailed                                   // detect_changes raised: a valid path became unreadable
    | NothingNew(validated: nat, changed: seq<string>)  // every changed path is already in the checkpoint
    | GuardianFailed                                 // the domain model raised inside enforce_processing_limits
    | Ready(validated: nat, changed: seq<string>, uniqueDocs: seq<Document>, recommendation: int)

  /** The front half as a function of the environment, the version table
      and the checkpoint's processed paths. */
  function FrontOf(env: Environment, files: map<string, Versioning.FileRow>, processed: set<string>): Front
    requires Sampled(env)
  {
    var valid := ValidPaths(env);
    var changes := Versioning.Partition(files, valid, env.stat, env.reader, env.digest);
    if changes.None? then ReaderFailed else AfterChanges(env, |valid|, changes.value.0, processed)
  }

  /** The part after detect_changes succeeded with `changed`. */
  function AfterChanges(env: Environment, validated: nat, changed: seq<string>, processed: set<string>): Front
    requires Sampled(env)
  {
    var todo := Unprocessed(changed, processed);
    if todo == [] then NothingNew(validated, changed)
    else AfterBuild(env, validated, changed, Documents.Build(todo, env.reader, env.uuid))
  }

  /** The part after build_documents produced `docs`. */
  function AfterBuild(env: Environment, validated: nat, changed: seq<string>, docs: seq<Document>): Front
    requires Sampled(env)
  {
    var plan := DomainGuardian.PlanFor(docs, MemoryAtPlan(env), map[], env.domainModel);
    if plan.None? then GuardianFailed
    else Ready(validated, changed, Dedup.DedupFold(Admitted(docs, AdmittedPaths(plan.value.0)), env.embedder).kept, Recommendation(env))
  }

  /** The documents handed to the deduplicator: the guardian's admitted
      documents when the front half gets that far, none otherwise. */
  function DedupInput(env: Environment, files: map<string, Versioning.FileRow>, processed: set<string>): seq<Document>
    requires Sampled(env)
  {
    var valid := ValidPaths(env);
    var changes := Versioning.Partition(files, valid, env.stat, env.reader, env.digest);
    if changes.None? then [] else
    var todo := Unprocessed(changes.value.0, processed);
    if todo == [] then [] else
    var docs := Documents.Build(todo, env.reader, env.uuid);
    var plan := DomainGuardian.PlanFor(docs, MemoryAtPlan(env), map[], env.domainModel);
    if plan.None? then [] else Admitted(docs, AdmittedPaths(plan.value.0))
  }

  /** The vector store's upserts from one front half: the deduplicator's
      batch of exactly the documents that reach the workers, and nothing
      when the front half stops before deduplication. */
  lemma FrontUpserts(env: Environment, files: map<string, Versioning.FileRow>, processed: set<string>)
    requires Sampled(env)
    ensures var f := FrontOf(env, files, processed);
      var st := Dedup.DedupFold(DedupInput(env, files, processed), env.embedder);
      (f.Ready? ==> f.uniqueDocs == st.kept)
      && (!f.Ready? ==> Dedup.Upserted(st) == [])
      && (f.Ready? && f.uniqueDocs != [] ==>
            Dedup.Upserted(st) == [Dedup.UpsertBatch(Dedup.Ids(f.uniqueDocs), st.embeddings, Dedup.Metadatas(f.uniqueDocs), Dedup.Contents(f.uniqueDocs))])
  {
    assert Dedup.DedupFold([], env.embedder).kept == [];
  }

  /** The memory percentage the guardian plans with. */
  function MemoryAtPlan(env: Environment): real
    requires Sampled(env)
  {
    DomainGuardian.StatsOf(env.planSample).memoryUsedPercent
  }

  /** get_optimal_workers on the guardian's monitor, whose history already
      holds the guardian's own sample. */
  function Recommendation(env: Environment): (r: int)
    requires Sampled(env)
    ensures 2 <= r <= 12
  {
    var first := DomainGuardian.StatsOf(env.planSample);
    var second := DomainGuardian.StatsOf(env.workerSample);
    var history := DomainGuardian.Record(DomainGuardian.Record([], DomainGuardian.HistoryEntry(env.planTime, first.memoryUsedPercent, first.cpuAverage)),
                                         DomainGuardian.HistoryEntry(env.workerTime, second.memoryUsedPercent, second.cpuAverage));
    DomainGuardian.RecommendedWorkers(DomainGuardian.PipelineWorkers, second, history)
  }

  /** When the front half reaches the pool, its recommendation is the
      monitor's. */
  lemma ReadyRecommendation(env: Environment, files: map<string, Versioning.FileRow>, processed: set<string>)
    requires Sampled(env) && FrontOf(env, files, processed).Ready?
    ensures FrontOf(env, files, processed).recommendation == Recommendation(env)
  {
  }

  /** What reaches the workers: documents for paths that changed and are not
      in the checkpoint, none of them when memory was critical, and never
      more than the paths left to do. */
  lemma AdmittedDocuments(env: Environment, files: map<string, Versioning.FileRow>, processed: set<string>)
    requires Sampled(env) && FrontOf(env, files, processed).Ready?
    ensures var f := FrontOf(env, files, processed);
      (forall d :: d in f.uniqueDocs ==> d.path in f.changed && d.path !in processed && Documents.Readable(d.path, env.reader))
      && (MemoryAtPlan(env) > 0.9 ==> f.uniqueDocs == [])
      && |f.uniqueDocs| <= |Unprocessed(f.changed, processed)|
  {
    var f := FrontOf(env, files, processed);
    var todo := Unprocessed(f.changed, processed);
    var docs := Documents.Build(todo, env.reader, env.uuid);
    assert f == AfterBuild(env, f.validated, f.changed, docs);
    UnprocessedExact(f.changed, processed);
    Documents.BuildKeepsReadable(todo, env.reader, env.uuid);
    GuardianFilter(docs, MemoryAtPlan(env), map[], env.domainModel);
    var kept := Admitted(docs, AdmittedPaths(DomainGuardian.PlanFor(docs, MemoryAtPlan(env), map[], env.domainModel).value.0));
    assert kept == if MemoryAtPlan(env) > 0.9 then [] else docs;
    var st := Dedup.DedupFold(kept, env.embedder);
    assert f.uniqueDocs == st.kept;
    forall d | d in f.uniqueDocs
      ensures d in docs
    {
      Dedup.KeptAreInput(kept, env.embedder, d);
    }
  }

  /** The front half with the real objects: the version tracker is only
      read; the guardian is created here, as main does, and the vector
      store receives the deduplicator's upsert. */
  method Prepare(env: Environment, vt: Versioning.VersionTracker, processed: set<string>, vs: Dedup.VectorStore)
    returns (front: Front)
    requires Sampled(env)
    modifies vs
    ensures front == FrontOf(env, vt.files, processed)
    ensures vs.upserts == old(vs.upserts) + Dedup.Upserted(Dedup.DedupFold(DedupInput(env, vt.files, processed), env.embedder))
    ensures !front.Ready? ==> vs.upserts == old(vs.upserts)
  {
    var validPaths, issues := Validators.ValidateFolder(env.walk, env.getsize, env.guessType);
    var ok, changed, unmodified := vt.DetectChanges(validPaths, env.stat, env.reader, env.digest);
    if !ok {
      Versioning.PartitionSplits(vt.files, validPaths, env.stat, env.reader, env.digest);
      return ReaderFailed;
    }
    var todo := FilterUnprocessed(changed, processed);
    if todo == [] {
      return NothingNew(|validPaths|, changed);
    }
    var docs := Documents.BuildDocuments(todo, env.reader, env.uuid);
    var guardian := new DomainGuardian.ResourceGuardian(env.isAppleSilicon);
    var planned, plan := guardian.EnforceProcessingLimits(docs, env.planSample, env.planTime, env.domainModel);
    if !planned {
      return GuardianFailed;
    }
    var kept := KeepAdmitted(docs, plan.decisions);
    var uniqueDocs := Dedup.DetectSemanticDuplicates(kept, env.embedder, vs);
    var recommendation := guardian.resourceMonitor.GetOptimalWorkers(env.workerSample, env.workerTime);
    front := Ready(|validPaths|, changed, uniqueDocs, recommendation);
  }

  /** The list comprehension over the changed paths. */
  method FilterUnprocessed(paths: seq<string>, processed: set<string>) returns (todo: seq<string>)
    ensures todo == Unprocessed(paths, processed)
  {
    todo := [];
    var i := 0;
    while i < |paths|
      invariant 0 <= i <= |paths|
      invariant todo == Unprocessed(paths[..i], processed)
    {
      assert paths[..i + 1][..i] == paths[..i];
      if paths[i] !in processed {
        todo := todo + [paths[i]];
      }
      i := i + 1;
    }
    assert paths[..i] == paths;
  }

  /** The set comprehension over the plan, then the list comprehension over
      the documents. */
  method KeepAdmitted(docs: seq<Document>, decisions: seq<ProcessingDecision>) returns (kept: seq<Document>)
    ensures kept == Admitted(docs, AdmittedPaths(decisions))
  {
    var admitted: set<string> := {};
    var j := 0;
    while j < |decisions|
      invariant 0 <= j <= |decisions|
      invariant admitted == AdmittedPaths(decisions[..j])
    {
      assert forall i :: 0 <= i < j ==> decisions[..j + 1][i] == decisions[..j][i];
      if decisions[j].action != Skip {
        admitted := admitted + {decisions[j].path};
      }
      j := j + 1;
    }
    assert decisions[..j] == decisions;
    kept := [];
    var i := 0;
    while i < |docs|
      invariant 0 <= i <= |docs|
      invariant kept == Admitted(docs[..i], admitted)
    {
      assert docs[..i + 1][..i] == docs[..i];
      if docs[i].path in admitted {
        kept := kept + [docs[i]];
      }
      i := i + 1;
    }
    assert docs[..i] == docs;
  }
}

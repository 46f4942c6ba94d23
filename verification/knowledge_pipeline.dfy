/** `main` of the knowledge pipeline (localknow/pipeline/orchestrator.py:143-257):
    resume from the checkpoint, admit the new or modified documents, run
    process_single_document on each, and absorb the results one at a time
    in whatever order the workers finish. Each completion updates the
    summary, the knowledge graph, the version table, the processed paths,
    and saves a checkpoint when the success count is a multiple of five. */
module KnowledgePipeline {
  import opened Common
  import opened Types
  import opened KnowledgeDocument
  import Graph
  import Checkpoint
  import Versioning
  import Admission
  import Dedup

  /** The summary dictionary. */
  datatype Summary = Summary(processed: int, concepts: int, principles: int, controversies: int, avgQuality: seq<real>)

  const InitialSummary: Summary := Summary(0, 0, 0, 0, [])

  /** The checkpoint's results dictionary: a summary and the graph as
      node-link JSON, either of which may be missing. */
  datatype Stored = Stored(summary: Option<Summary>, graphJson: Option<string>)

  /** `if checkpoint["results"]`: a dictionary with at least one key. */
  predicate NonEmpty(s: Stored)
  {
    s.summary.Some? || s.graphJson.Some?
  }

  /** Graph serialisation (to_json; json.loads + node_link_graph, None when
      either raises) and json.dumps for controversy viewpoints. */
  datatype Codec = Codec(dump: Graph.KnowledgeGraph -> string, load: string -> Option<Graph.KnowledgeGraph>, dumps: Json -> string)

  /** The state the completion loop updates. `saves` is the checkpoint
      manager's log of saves. */
  datatype RunState = RunState(summary: Summary, processed: set<string>, graph: Graph.KnowledgeGraph,
                               files: map<string, Versioning.FileRow>, saves: seq<(set<string>, Stored)>)

  /** The summary after one result: only a success counts. */
  function Tally(s: Summary, r: DocResult): Summary
  {
    if r.Success? then Summary(s.processed + 1, s.concepts + |r.concepts|, s.principles + |r.principles|,
                               s.controversies + |r.controversies|, s.avgQuality + [r.quality])
    else s
  }

  /** One result moves the summary forward: only a success changes it,
      adding one processed document, its counts and one quality score. */
  lemma TallyGrows(s: Summary, r: DocResult)
    ensures var t := Tally(s, r);
      && (t.processed == s.processed <==> !r.Success?)
      && s.processed <= t.processed <= s.processed + 1
      && s.concepts <= t.concepts && s.principles <= t.principles && s.controversies <= t.controversies
      && s.avgQuality <= t.avgQuality && |t.avgQuality| - |s.avgQuality| == t.processed - s.processed
  {
  }

  /** add_concepts, add_principles, add_controversies, map_dependencies. */
  function Extend(g: Graph.KnowledgeGraph, r: DocResult, dumps: Json -> string): Graph.KnowledgeGraph
    requires r.Success?
  {
    var g1 := Graph.AddNodes(g, Graph.ConceptEntries(r.concepts, r.docId));
    var g2 := Graph.AddNodes(g1, Graph.PrincipleEntries(r.principles, r.docId));
    var g3 := Graph.AddNodes(g2, Graph.ControversyEntries(r.controversies, r.docId, dumps));
    Graph.AddEdges(g3, Graph.Links(r.concepts, r.principles), Graph.ExplainsAttrs)
  }

  /** record_file(result["path"], result["content"]). */
  function Row(r: DocResult, env: Admission.Environment): Versioning.FileRow
  {
    Versioning.FileRow(env.stat(r.path).mtime, env.stat(r.path).size, env.digest(r.content))
  }

  /** One completion of the as_completed loop. */
  function Complete(st: RunState, r: DocResult, env: Admission.Environment, codec: Codec): (c: RunState)
    ensures st.saves <= c.saves && |c.saves| <= |st.saves| + 1
    ensures !r.Success? ==> c.summary == st.summary && c.graph == st.graph
  {
    var summary := Tally(st.summary, r);
    var graph := if r.Success? then Extend(st.graph, r, codec.dumps) else st.graph;
    var processed := st.processed + {r.path};
    RunState(summary, processed, graph, st.files[r.path := Row(r, env)],
             st.saves + (if summary.processed % 5 == 0 then [(processed, Stored(Some(summary), Some(codec.dump(graph))))] else []))
  }

  /** The completions in the order they arrive. */
  function CompleteAll(st: RunState, rs: seq<DocResult>, env: Admission.Environment, codec: Codec): (c: RunState)
    ensures st.saves <= c.saves && |c.saves| <= |st.saves| + |rs|
    ensures st.processed <= c.processed
  {
    if rs == [] then st else Complete(CompleteAll(st, rs[..|rs| - 1], env, codec), rs[|rs| - 1], env, codec)
  }

  function SuccessCount(r: DocResult): int { if r.Success? then 1 else 0 }
  function ConceptCount(r: DocResult): int { if r.Success? then |r.concepts| else 0 }
  function PrincipleCount(r: DocResult): int { if r.Success? then |r.principles| else 0 }
  function ControversyCount(r: DocResult): int { if r.Success? then |r.controversies| else 0 }
  function QualityOf(r: DocResult): real { if r.Success? then r.quality else 0.0 }

  /** The quality scores of the successes, in arrival order. */
  function Qualities(rs: seq<DocResult>): seq<real>
  {
    if rs == [] then []
    else Qualities(rs[..|rs| - 1]) + (if rs[|rs| - 1].Success? then [rs[|rs| - 1].quality] else [])
  }

  /** The paths of a batch of results. */
  function PathsOf(rs: seq<DocResult>): set<string>
  {
    set i | 0 <= i < |rs| :: rs[i].path
  }

  /** The summary after a batch: each counter grows by the successes'
      contributions and the scores of the successes are appended. */
  lemma {:induction false} SummaryTotals(st: RunState, rs: seq<DocResult>, env: Admission.Environment, codec: Codec)
    ensures var s := CompleteAll(st, rs, env, codec).summary;
      && s.processed == st.summary.processed + SumOf(rs, SuccessCount)
      && s.concepts == st.summary.concepts + SumOf(rs, ConceptCount)
      && s.principles == st.summary.principles + SumOf(rs, PrincipleCount)
      && s.controversies == st.summary.controversies + SumOf(rs, ControversyCount)
      && s.avgQuality == st.summary.avgQuality + Qualities(rs)
  {
    if rs == [] {
      assert st.summary.avgQuality + [] == st.summary.avgQuality;
    } else {
      var init, r := rs[..|rs| - 1], rs[|rs| - 1];
      SummaryTotals(st, init, env, codec);
      assert CompleteAll(st, rs, env, codec).summary == Tally(CompleteAll(st, init, env, codec).summary, r);
      assert SumOf(rs, SuccessCount) == SumOf(init, SuccessCount) + SuccessCount(r);
      assert SumOf(rs, ConceptCount) == SumOf(init, ConceptCount) + ConceptCount(r);
      assert SumOf(rs, PrincipleCount) == SumOf(init, PrincipleCount) + PrincipleCount(r);
      assert SumOf(rs, ControversyCount) == SumOf(init, ControversyCount) + ControversyCount(r);
      var q := Qualities(init);
      if r.Success? {
        assert Qualities(rs) == q + [r.quality];
        assert st.summary.avgQuality + q + [r.quality] == st.summary.avgQuality + (q + [r.quality]);
      } else {
        assert Qualities(rs) == q;
      }
    }
  }

  /** The counters never decrease and the score list only grows: failed
      and skipped documents leave the summary as it was. */
  lemma {:induction false} SummaryGrows(st: RunState, rs: seq<DocResult>, env: Admission.Environment, codec: Codec)
    ensures var s := CompleteAll(st, rs, env, codec).summary;
      && st.summary.processed <= s.processed && st.summary.concepts <= s.concepts
      && st.summary.principles <= s.principles && st.summary.controversies <= s.controversies
      && st.summary.avgQuality <= s.avgQuality
    ensures (forall i :: 0 <= i < |rs| ==> !rs[i].Success?) ==> CompleteAll(st, rs, env, codec).summary == st.summary
  {
    if rs != [] {
      SummaryGrows(st, rs[..|rs| - 1], env, codec);
    }
  }

  /** The scores' sum and count are the successes' scores and number. */
  lemma {:induction false} QualitiesTotals(rs: seq<DocResult>)
    ensures Sum(Qualities(rs)) == SumOfReal(rs, QualityOf)
    ensures |Qualities(rs)| == SumOf(rs, SuccessCount)
  {
    if rs != [] {
      var init := rs[..|rs| - 1];
      QualitiesTotals(init);
      var last := if rs[|rs| - 1].Success? then [rs[|rs| - 1].quality] else [];
      SumAppend(Qualities(init), last);
      assert Sum(last) == QualityOf(rs[|rs| - 1]) by {
        if last != [] {
          assert last[..0] == [];
        }
      }
    }
  }

  lemma PathsOfSnoc(rs: seq<DocResult>)
    requires rs != []
    ensures PathsOf(rs) == PathsOf(rs[..|rs| - 1]) + {rs[|rs| - 1].path}
  {
    var init := rs[..|rs| - 1];
    forall p | p in PathsOf(rs)
      ensures p in PathsOf(init) + {rs[|rs| - 1].path}
    {
      var i :| 0 <= i < |rs| && rs[i].path == p;
      if i < |init| {
        assert init[i] == rs[i];
      }
    }
    forall p | p in PathsOf(init)
      ensures p in PathsOf(rs)
    {
      var i :| 0 <= i < |init| && init[i].path == p;
      assert rs[i] == init[i];
    }
  }

  lemma PathsOfPermutation(a: seq<DocResult>, b: seq<DocResult>)
    requires multiset(a) == multiset(b)
    ensures PathsOf(a) == PathsOf(b)
  {
    forall p | p in PathsOf(a)
      ensures p in PathsOf(b)
    {
      var i :| 0 <= i < |a| && a[i].path == p;
      assert a[i] in multiset(b);
    }
    forall p | p in PathsOf(b)
      ensures p in PathsOf(a)
    {
      var i :| 0 <= i < |b| && b[i].path == p;
      assert b[i] in multiset(a);
    }
  }

  /** Every result, whatever its status, marks its path processed and
      records a version row for it; nothing else is added, and rows of
      other paths are untouched. */
  lemma {:induction false} EveryResultRecorded(st: RunState, rs: seq<DocResult>, env: Admission.Environment, codec: Codec)
    ensures var f := CompleteAll(st, rs, env, codec);
      && f.processed == st.processed + PathsOf(rs)
      && f.files.Keys == st.files.Keys + PathsOf(rs)
      && (forall p :: p in st.files && p !in PathsOf(rs) ==> f.files[p] == st.files[p])
  {
    if rs != [] {
      EveryResultRecorded(st, rs[..|rs| - 1], env, codec);
      PathsOfSnoc(rs);
    }
  }

  /** The last result for a path decides its row: the stat at record time
      and the digest of the result's content (empty for an error). */
  lemma LastResultDecidesRow(st: RunState, rs: seq<DocResult>, env: Admission.Environment, codec: Codec)
    requires rs != []
    ensures var r := rs[|rs| - 1];
      CompleteAll(st, rs, env, codec).files[r.path] == Versioning.FileRow(env.stat(r.path).mtime, env.stat(r.path).size, env.digest(r.content))
  {
  }

  /** An error is recorded with the digest of "" instead of the document's
      text, so when that digest differs, the next run finds the file
      modified again although it was recorded. */
  lemma ErrorIsSeenAsModified(st: RunState, doc: Document, x: Extractors, env: Admission.Environment, codec: Codec)
    requires Process(doc, x).Errored? && env.digest(doc.content) != env.digest([])
    ensures !Versioning.IsUnchanged(Complete(st, Process(doc, x), env, codec).files, doc.path, env.stat(doc.path), env.digest(doc.content))
  {
    Outcomes(doc, x);
  }

  /** A success or skip is recorded with the document's text, so with the
      same stat and text the next run finds the file unchanged. */
  lemma ContentIsSeenAsUnchanged(st: RunState, doc: Document, x: Extractors, env: Admission.Environment, codec: Codec)
    requires !Process(doc, x).Errored?
    ensures Versioning.IsUnchanged(Complete(st, Process(doc, x), env, codec).files, doc.path, env.stat(doc.path), env.digest(doc.content))
  {
    Outcomes(doc, x);
  }

  /** A completion saves a checkpoint iff the success count after it is a
      multiple of five; the save holds the processed paths including this
      one, the summary and the graph as they are at that moment. */
  lemma SaveRule(st: RunState, r: DocResult, env: Admission.Environment, codec: Codec)
    ensures var next := Complete(st, r, env, codec);
      && (|next.saves| == |st.saves| + 1 <==> next.summary.processed % 5 == 0)
      && (|next.saves| == |st.saves| + 1 ==>
            next.saves[|st.saves|] == (next.processed, Stored(Some(next.summary), Some(codec.dump(next.graph)))))
      && next.saves[..|st.saves|] == st.saves
  {
  }

  /** While no document has succeeded, every completion, failed or
      skipped, saves a checkpoint. */
  lemma {:induction false} FailuresBeforeFirstSuccessSave(st: RunState, rs: seq<DocResult>, env: Admission.Environment, codec: Codec)
    requires st.summary.processed == 0
    requires forall i :: 0 <= i < |rs| ==> !rs[i].Success?
    ensures |CompleteAll(st, rs, env, codec).saves| == |st.saves| + |rs|
  {
    if rs != [] {
      FailuresBeforeFirstSuccessSave(st, rs[..|rs| - 1], env, codec);
      SummaryGrows(st, rs[..|rs| - 1], env, codec);
    }
  }

  /** From a fresh summary, a run of successes saves once every five
      documents. */
  lemma {:induction false} SuccessesSaveEveryFifth(st: RunState, rs: seq<DocResult>, env: Admission.Environment, codec: Codec)
    requires st.summary.processed == 0
    requires forall i :: 0 <= i < |rs| ==> rs[i].Success?
    ensures CompleteAll(st, rs, env, codec).summary.processed == |rs|
    ensures |CompleteAll(st, rs, env, codec).saves| == |st.saves| + |rs| / 5
  {
    if rs != [] {
      SuccessesSaveEveryFifth(st, rs[..|rs| - 1], env, codec);
    }
  }

  /** The arrival order does not change the counters, the number and sum of
      scores, the processed paths or which paths have rows. */
  lemma OrderIndependent(st: RunState, a: seq<DocResult>, b: seq<DocResult>, env: Admission.Environment, codec: Codec)
    requires multiset(a) == multiset(b)
    ensures var fa := CompleteAll(st, a, env, codec);
      var fb := CompleteAll(st, b, env, codec);
      && fa.summary.processed == fb.summary.processed
      && fa.summary.concepts == fb.summary.concepts
      && fa.summary.principles == fb.summary.principles
      && fa.summary.controversies == fb.summary.controversies
      && |fa.summary.avgQuality| == |fb.summary.avgQuality|
      && Sum(fa.summary.avgQuality) == Sum(fb.summary.avgQuality)
      && fa.processed == fb.processed
      && fa.files.Keys == fb.files.Keys
  {
    CountersIndependent(st, a, b, env, codec);
    ScoresIndependent(st, a, b, env, codec);
    RecordsIndependent(st, a, b, env, codec);
  }

  lemma CountersIndependent(st: RunState, a: seq<DocResult>, b: seq<DocResult>, env: Admission.Environment, codec: Codec)
    requires multiset(a) == multiset(b)
    ensures var fa := CompleteAll(st, a, env, codec).summary;
      var fb := CompleteAll(st, b, env, codec).summary;
      && fa.processed == fb.processed
      && fa.concepts == fb.concepts
      && fa.principles == fb.principles
      && fa.controversies == fb.controversies
  {
    SummaryTotals(st, a, env, codec);
    SummaryTotals(st, b, env, codec);
    SumOfPermutation(a, b, SuccessCount);
    SumOfPermutation(a, b, ConceptCount);
    SumOfPermutation(a, b, PrincipleCount);
    SumOfPermutation(a, b, ControversyCount);
  }

  lemma ScoresIndependent(st: RunState, a: seq<DocResult>, b: seq<DocResult>, env: Admission.Environment, codec: Codec)
    requires multiset(a) == multiset(b)
    ensures var fa := CompleteAll(st, a, env, codec).summary;
      var fb := CompleteAll(st, b, env, codec).summary;
      && |fa.avgQuality| == |fb.avgQuality|
      && Sum(fa.avgQuality) == Sum(fb.avgQuality)
  {
    SummaryTotals(st, a, env, codec);
    SummaryTotals(st, b, env, codec);
    SumOfPermutation(a, b, SuccessCount);
    QualitiesTotals(a);
    QualitiesTotals(b);
    SumOfRealPermutation(a, b, QualityOf);
    SumAppend(st.summary.avgQuality, Qualities(a));
    SumAppend(st.summary.avgQuality, Qualities(b));
  }

  lemma RecordsIndependent(st: RunState, a: seq<DocResult>, b: seq<DocResult>, env: Admission.Environment, codec: Codec)
    requires multiset(a) == multiset(b)
    ensures var fa := CompleteAll(st, a, env, codec);
      var fb := CompleteAll(st, b, env, codec);
      fa.processed == fb.processed && fa.files.Keys == fb.files.Keys
  {
    EveryResultRecorded(st, a, env, codec);
    EveryResultRecorded(st, b, env, codec);
    PathsOfPermutation(a, b);
  }

  /** `sum(scores) / len(scores) if scores else 0`. */
  function FinalQuality(scores: seq<real>): real
  {
    if scores == [] then 0.0 else Mean(scores)
  }

  /** The final average is the same whatever the arrival order. */
  lemma FinalQualityIndependent(st: RunState, a: seq<DocResult>, b: seq<DocResult>, env: Admission.Environment, codec: Codec)
    requires multiset(a) == multiset(b)
    ensures FinalQuality(CompleteAll(st, a, env, codec).summary.avgQuality) == FinalQuality(CompleteAll(st, b, env, codec).summary.avgQuality)
  {
    OrderIndependent(st, a, b, env, codec);
  }

  /** min(2, recommendation), then 1 when memory is above 75 percent. */
  function Workers(recommendation: int, memoryPercent: real): (w: int)
    ensures w <= 2
    ensures recommendation >= 1 ==> w >= 1
  {
    if memoryPercent > 75.0 then 1 else Min(2, recommendation)
  }

  /** The recommendation is at least two, so the cap always wins: two
      workers, or one under memory pressure. */
  lemma WorkersAreOneOrTwo(env: Admission.Environment, memoryPercent: real)
    requires Admission.Sampled(env)
    ensures Workers(Admission.Recommendation(env), memoryPercent) == if memoryPercent > 75.0 then 1 else 2
  {
  }

  /** The results the workers produce, one per admitted document. */
  function Results(docs: seq<Document>, x: Extractors): (rs: seq<DocResult>)
    ensures |rs| == |docs| && forall i :: 0 <= i < |docs| ==> rs[i] == Process(docs[i], x)
  {
    seq(|docs|, i requires 0 <= i < |docs| => Process(docs[i], x))
  }

  /** What main starts the loop from: the checkpoint's processed paths,
      its summary or a fresh one, and its graph when it can be restored. */
  function Start(l: Checkpoint.Loaded<Stored>, codec: Codec, files: map<string, Versioning.FileRow>, saves: seq<(set<string>, Stored)>): (st: RunState)
    ensures st.processed == l.processedPaths && st.files == files && st.saves == saves
    ensures l.results.None? ==> st.summary == InitialSummary && st.graph == Graph.EmptyGraph
  {
    var summary := if l.results.Some? && l.results.value.summary.Some? then l.results.value.summary.value else InitialSummary;
    RunState(summary, l.processedPaths, RestoredGraph(l, codec), files, saves)
  }

  /** builder.G after the restore attempt. */
  function RestoredGraph(l: Checkpoint.Loaded<Stored>, codec: Codec): (g: Graph.KnowledgeGraph)
    ensures g == Graph.EmptyGraph || (l.results.Some? && l.results.value.graphJson.Some? && codec.load(l.results.value.graphJson.value) == Some(g))
  {
    if l.results.Some? && l.results.value.graphJson.Some? && codec.load(l.results.value.graphJson.value).Some?
    then codec.load(l.results.value.graphJson.value).value
    else Graph.EmptyGraph
  }

  /** Resuming from a save restores its paths and summary, and its graph
      when the JSON round trip is lossless. */
  lemma ResumeFromSave(paths: set<string>, summary: Summary, g: Graph.KnowledgeGraph, codec: Codec,
                       files: map<string, Versioning.FileRow>, saves: seq<(set<string>, Stored)>)
    requires codec.load(codec.dump(g)) == Some(g)
    ensures var st := Start(Checkpoint.LoadOf(Checkpoint.Written(paths, Stored(Some(summary), Some(codec.dump(g))))), codec, files, saves);
      st.processed == paths && st.summary == summary && st.graph == g
  {
  }

  /** How main ends. */
  datatype Outcome =
    | Crashed
    | StoredResults(results: Stored)
    | NothingToDo
    | Report(filesValidated: int, filesChanged: int, filesProcessedAfterDedup: int, conceptsExtracted: int,
             principlesExtracted: int, controversiesFound: int, averageQualityScore: real, graphJson: string)

  /** The report after the loop. */
  function ReportOf(front: Admission.Front, summary: Summary, graph: Graph.KnowledgeGraph, codec: Codec, round3: real -> real): Outcome
    requires front.Ready?
  {
    Report(front.validated, |front.changed|, |front.uniqueDocs|, summary.concepts, summary.principles,
           summary.controversies, round3(FinalQuality(summary.avgQuality)), codec.dump(graph))
  }

  /** The early return when nothing is left to do. */
  function Early(l: Checkpoint.Loaded<Stored>): Outcome
  {
    if l.results.Some? && NonEmpty(l.results.value) then StoredResults(l.results.value) else NothingToDo
  }

  /** The four builder calls for a success. */
  method ExtendGraph(r: DocResult, codec: Codec, builder: Graph.KnowledgeBuilder)
    requires r.Success?
    modifies builder
    ensures builder.graph == Extend(old(builder.graph), r, codec.dumps)
  {
    builder.AddConcepts(r.concepts, r.docId);
    builder.AddPrinciples(r.principles, r.docId);
    builder.AddControversies(r.controversies, r.docId, codec.dumps);
    builder.MapDependencies(r.concepts, r.principles);
  }

  /** One completion, applied to the real objects. */
  method Absorb(r: DocResult, env: Admission.Environment, codec: Codec, builder: Graph.KnowledgeBuilder,
                vt: Versioning.VersionTracker, cm: Checkpoint.CheckpointManager<Stored>,
                summary: Summary, processed: set<string>)
    returns (summary': Summary, processed': set<string>)
    modifies builder, vt, cm
    ensures RunState(summary', processed', builder.graph, vt.files, cm.saves)
         == Complete(RunState(summary, processed, old(builder.graph), old(vt.files), old(cm.saves)), r, env, codec)
    ensures cm.saves == old(cm.saves) ==> cm.file == old(cm.file)
    ensures cm.saves != old(cm.saves) ==> cm.file == Checkpoint.Written(cm.saves[|cm.saves| - 1].0, cm.saves[|cm.saves| - 1].1)
  {
    summary' := summary;
    if r.Success? {
      ExtendGraph(r, codec, builder);
      summary' := Summary(summary.processed + 1, summary.concepts + |r.concepts|, summary.principles + |r.principles|,
                          summary.controversies + |r.controversies|, summary.avgQuality + [r.quality]);
    }
    vt.RecordFile(r.path, r.content, env.stat(r.path), env.digest);
    processed' := processed + {r.path};
    if summary'.processed % 5 == 0 {
      cm.SaveCheckpoint(processed', Stored(Some(summary'), Some(codec.dump(builder.graph))));
    }
  }

  /** The as_completed loop: results are taken in an arbitrary order (any
      pending one may finish next); `done` is the order they arrived in. */
  method Drain(results: seq<DocResult>, env: Admission.Environment, codec: Codec, builder: Graph.KnowledgeBuilder,
               vt: Versioning.VersionTracker, cm: Checkpoint.CheckpointManager<Stored>,
               summary: Summary, processed: set<string>)
    returns (summary': Summary, processed': set<string>, ghost done: seq<DocResult>)
    modifies builder, vt, cm
    ensures multiset(done) == multiset(results)
    ensures RunState(summary', processed', builder.graph, vt.files, cm.saves)
         == CompleteAll(RunState(summary, processed, old(builder.graph), old(vt.files), old(cm.saves)), done, env, codec)
  {
    ghost var st0 := RunState(summary, processed, builder.graph, vt.files, cm.saves);
    var pending := results;
    summary', processed', done := summary, processed, [];
    while pending != []
      invariant multiset(done) + multiset(pending) == multiset(results)
      invariant RunState(summary', processed', builder.graph, vt.files, cm.saves) == CompleteAll(st0, done, env, codec)
      decreases |pending|
    {
      var j :| 0 <= j < |pending|;
      var r := pending[j];
      assert pending == pending[..j] + [r] + pending[j + 1..];
      pending := pending[..j] + pending[j + 1..];
      summary', processed' := Absorb(r, env, codec, builder, vt, cm, summary', processed');
      assert (done + [r])[..|done|] == done;
      done := done + [r];
    }
  }

  /** main. The checkpoint manager, version tracker and vector store stand
      for state that outlives a run; `memoryPercent` is the psutil reading
      taken before the pool starts. `workers` is the pool size (0 when no
      pool is started); `done` is the order in which results arrived. */
  method Run(env: Admission.Environment, x: Extractors, codec: Codec, memoryPercent: real,
             cm: Checkpoint.CheckpointManager<Stored>, vt: Versioning.VersionTracker, vs: Dedup.VectorStore)
    returns (outcome: Outcome, workers: int, ghost done: seq<DocResult>)
    requires Admission.Sampled(env)
    modifies cm, vt, vs
    ensures var l := Checkpoint.LoadOf(old(cm.file));
      var front := Admission.FrontOf(env, old(vt.files), l.processedPaths);
      && (front.ReaderFailed? || front.GuardianFailed? ==>
            outcome == Crashed && vt.files == old(vt.files) && cm.file == old(cm.file) && cm.saves == old(cm.saves))
      && (front.NothingNew? ==>
            outcome == Early(l) && vt.files == old(vt.files) && cm.file == old(cm.file) && cm.saves == old(cm.saves))
      && (front.Ready? ==>
            var final := CompleteAll(Start(l, codec, old(vt.files), old(cm.saves)), done, env, codec);
            && multiset(done) == multiset(Results(front.uniqueDocs, x))
            && workers == Workers(front.recommendation, memoryPercent)
            && 1 <= workers <= 2
            && outcome == ReportOf(front, final.summary, final.graph, codec, x.round3)
            && vt.files == final.files
            && cm.saves == final.saves
            && cm.file == Checkpoint.Absent)
    ensures var l := Checkpoint.LoadOf(old(cm.file));
      vs.upserts == old(vs.upserts) + Dedup.Upserted(Dedup.DedupFold(Admission.DedupInput(env, old(vt.files), l.processedPaths), env.embedder))
  {
    var l := cm.LoadCheckpoint();
    var builder := new Graph.KnowledgeBuilder();
    builder.graph := RestoredGraph(l, codec);
    var summary := if l.results.Some? && l.results.value.summary.Some? then l.results.value.summary.value else InitialSummary;
    var front := Admission.Prepare(env, vt, l.processedPaths, vs);
    workers, done := 0, [];
    if front.ReaderFailed? || front.GuardianFailed? {
      return Crashed, workers, done;
    }
    if front.NothingNew? {
      return Early(l), workers, done;
    }
    Admission.ReadyRecommendation(env, vt.files, l.processedPaths);
    WorkersAreOneOrTwo(env, memoryPercent);
    outcome, workers, done := Pool(front, env, x, codec, memoryPercent, builder, vt, cm, summary, l.processedPaths);
  }

  /** The worker pool after the front half: the pool size, one result per
      admitted document, the completion loop, the report and the final
      clear_checkpoint. */
  method Pool(front: Admission.Front, env: Admission.Environment, x: Extractors, codec: Codec, memoryPercent: real,
              builder: Graph.KnowledgeBuilder, vt: Versioning.VersionTracker, cm: Checkpoint.CheckpointManager<Stored>,
              summary: Summary, processed: set<string>)
    returns (outcome: Outcome, workers: int, ghost done: seq<DocResult>)
    requires front.Ready?
    modifies builder, vt, cm
    ensures var final := CompleteAll(RunState(summary, processed, old(builder.graph), old(vt.files), old(cm.saves)), done, env, codec);
      && multiset(done) == multiset(Results(front.uniqueDocs, x))
      && workers == Workers(front.recommendation, memoryPercent)
      && outcome == ReportOf(front, final.summary, final.graph, codec, x.round3)
      && vt.files == final.files
      && cm.saves == final.saves
      && cm.file == Checkpoint.Absent
  {
    workers := Min(2, front.recommendation);
    if memoryPercent > 75.0 {
      workers := 1;
    }
    var results := Results(front.uniqueDocs, x);
    var summary', processed';
    summary', processed', done := Drain(results, env, codec, builder, vt, cm, summary, processed);
    outcome := ReportOf(front, summary', builder.graph, codec, x.round3);
    cm.ClearCheckpoint();
  }
}

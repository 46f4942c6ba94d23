/** process_single_document of the knowledge pipeline
    (localknow/pipeline/orchestrator.py:42-97): chunk the document, extract
    concepts by consensus from each chunk, and for chunks that yield
    concepts also principles and controversies; then merge everything by
    lower-cased name or topic and score the concepts. The principle and
    controversy extractors are parameters: each returns its list or raises. */
module KnowledgeDocument {
  import opened Common
  import opened Types
  import Chunker
  import Concepts
  import Quality
  import Aggregate

  /** A call into a collaborator that may raise. */
  datatype Attempt<T> = Done(value: T) | Threw(message: string)

  /** The per-document services: the two concept models and their JSON
      tools, the principle extractor, the controversy detector and
      round(x, 3). */
  datatype Extractors = Extractors(
    primary: string -> Reply,
    validation: string -> Reply,
    tools: Concepts.Tools,
    principles: (seq<Concept>, string) -> Attempt<seq<Principle>>,
    controversies: (seq<Concept>, string) -> Attempt<seq<Controversy>>,
    round3: real -> real)

  /** TextChunker() with its default sizes. */
  const DefaultChunker: Chunker.TextChunker := Chunker.TextChunker(2000, 100)

  /** What one chunk contributes. */
  datatype ChunkResult = ChunkResult(concepts: seq<Concept>, principles: seq<Principle>, controversies: seq<Controversy>)

  /** One chunk: an exception, nothing (no concepts: `continue`), or its
      concepts, principles and controversies. */
  function ChunkStep(chunk: string, x: Extractors): (r: Attempt<Option<ChunkResult>>)
    ensures r.Done? && r.value.Some? ==> r.value.value.concepts != []
  {
    var found := Concepts.ConsensusSpec(chunk, x.primary, x.validation, x.tools);
    if found.Failed? then Threw(found.message)
    else if found.concepts == [] then Done(None)
    else
      var ps := x.principles(found.concepts, chunk);
      if ps.Threw? then Threw(ps.message)
      else
        var cs := x.controversies(found.concepts, chunk);
        if cs.Threw? then Threw(cs.message)
        else Done(Some(ChunkResult(found.concepts, ps.value, cs.value)))
  }

  /** The chunk loop: the first exception ends it; otherwise the results
      of the chunks that had concepts, in chunk order. */
  function ChunkResults(chunks: seq<string>, x: Extractors): (r: Attempt<seq<ChunkResult>>)
    ensures r.Done? ==> |r.value| <= |chunks|
    ensures r.Threw? ==> exists k :: 0 <= k < |chunks| && ChunkStep(chunks[k], x).Threw?
  {
    if chunks == [] then Done([])
    else
      var prior := ChunkResults(chunks[..|chunks| - 1], x);
      if prior.Threw? then prior
      else
        var step := ChunkStep(chunks[|chunks| - 1], x);
        if step.Threw? then Threw(step.message)
        else if step.value.None? then prior
        else Done(prior.value + [step.value.value])
  }

  /** Chunks without concepts contribute nothing: every collected result
      has concepts, and there is at most one per chunk. */
  lemma {:induction false} ChunkResultsShape(chunks: seq<string>, x: Extractors)
    requires ChunkResults(chunks, x).Done?
    ensures |ChunkResults(chunks, x).value| <= |chunks|
    ensures forall r :: r in ChunkResults(chunks, x).value ==> r.concepts != []
  {
    if chunks != [] {
      ChunkResultsShape(chunks[..|chunks| - 1], x);
    }
  }

  /** The loop collects nothing, without raising, exactly when the consensus
      of every chunk is an empty list. */
  lemma NothingCollected(chunks: seq<string>, x: Extractors)
    ensures ChunkResults(chunks, x) == Done([]) <==>
      forall i :: 0 <= i < |chunks| ==> Concepts.ConsensusSpec(chunks[i], x.primary, x.validation, x.tools) == Concepts.Found([])
  {
    var barren := (chunk: string) => Barren(chunk, x);
    EmptyIffAllHold(chunks, x, barren);
    AllHoldPointwise(chunks, barren);
  }

  /** The consensus of a chunk is an empty list. */
  ghost predicate Barren(chunk: string, x: Extractors)
  {
    Concepts.ConsensusSpec(chunk, x.primary, x.validation, x.tools) == Concepts.Found([])
  }

  /** `p` holds of every chunk, stated in the shape of the chunk loop. */
  ghost predicate AllHold(chunks: seq<string>, p: string -> bool)
  {
    chunks == [] || (AllHold(chunks[..|chunks| - 1], p) && p(chunks[|chunks| - 1]))
  }

  lemma {:induction false} EmptyIffAllHold(chunks: seq<string>, x: Extractors, barren: string -> bool)
    requires forall chunk :: barren(chunk) == Barren(chunk, x)
    ensures ChunkResults(chunks, x) == Done([]) <==> AllHold(chunks, barren)
  {
    if chunks != [] {
      EmptyIffAllHold(chunks[..|chunks| - 1], x, barren);
      EmptySnoc(chunks, x);
    }
  }

  lemma {:induction false} AllHoldPointwise(chunks: seq<string>, p: string -> bool)
    ensures AllHold(chunks, p) <==> forall i :: 0 <= i < |chunks| ==> p(chunks[i])
  {
    if chunks != [] {
      var init := chunks[..|chunks| - 1];
      AllHoldPointwise(init, p);
      assert forall i :: 0 <= i < |init| ==> init[i] == chunks[i];
    }
  }

  /** The loop has collected nothing after one more chunk exactly when it
      had collected nothing before and that chunk's consensus is empty. */
  lemma EmptySnoc(chunks: seq<string>, x: Extractors)
    requires chunks != []
    ensures ChunkResults(chunks, x) == Done([]) <==>
      ChunkResults(chunks[..|chunks| - 1], x) == Done([]) && Barren(chunks[|chunks| - 1], x)
  {
    var prior := ChunkResults(chunks[..|chunks| - 1], x);
    var step := ChunkStep(chunks[|chunks| - 1], x);
    StepNone(chunks[|chunks| - 1], x);
    if prior.Done? && step.Done? && step.value.Some? {
      assert ChunkResults(chunks, x) == Done(prior.value + [step.value.value]);
    }
  }

  /** A chunk contributes nothing, without raising, exactly when its
      consensus is an empty list. */
  lemma StepNone(chunk: string, x: Extractors)
    ensures ChunkStep(chunk, x) == Done(None) <==>
      Concepts.ConsensusSpec(chunk, x.primary, x.validation, x.tools) == Concepts.Found([])
  {
  }

  /** Once the loop has raised on a prefix, the document's loop has raised
      with the same message. */
  lemma {:induction false} ThrewPersists(chunks: seq<string>, k: int, x: Extractors)
    requires 0 <= k <= |chunks| && ChunkResults(chunks[..k], x).Threw?
    ensures ChunkResults(chunks, x) == ChunkResults(chunks[..k], x)
    decreases |chunks| - k
  {
    if k < |chunks| {
      assert chunks[..k + 1][..k] == chunks[..k];
      ThrewPersists(chunks, k + 1, x);
    } else {
      assert chunks[..k] == chunks;
    }
  }

  function AllConcepts(rs: seq<ChunkResult>): seq<Concept>
  {
    if rs == [] then [] else AllConcepts(rs[..|rs| - 1]) + rs[|rs| - 1].concepts
  }

  function AllPrinciples(rs: seq<ChunkResult>): seq<Principle>
  {
    if rs == [] then [] else AllPrinciples(rs[..|rs| - 1]) + rs[|rs| - 1].principles
  }

  function AllControversies(rs: seq<ChunkResult>): seq<Controversy>
  {
    if rs == [] then [] else AllControversies(rs[..|rs| - 1]) + rs[|rs| - 1].controversies
  }

  /** A non-empty list of results, each with concepts, gives concepts. */
  lemma {:induction false} AllConceptsNonEmpty(rs: seq<ChunkResult>)
    requires rs != [] && forall r :: r in rs ==> r.concepts != []
    ensures AllConcepts(rs) != []
  {
    assert rs[|rs| - 1] in rs;
  }

  function ConceptKey(c: Concept): string { Lower(c.name) }
  function PrincipleKey(p: Principle): string { Lower(p.name) }
  function ControversyKey(c: Controversy): string { Lower(c.topic) }

  /** The result dictionary of process_single_document. */
  datatype DocResult =
    | Success(docId: string, path: string, content: string, concepts: seq<Concept>, principles: seq<Principle>,
              controversies: seq<Controversy>, quality: real)
    | Skipped(docId: string, path: string, content: string)
    | Errored(reason: string, docId: string, path: string, content: string)

  /** process_single_document. */
  function Process(doc: Document, x: Extractors): (r: DocResult)
    ensures r.docId == doc.documentId && r.path == doc.path
  {
    var outcome := ChunkResults(Chunker.Chunks(doc.content, DefaultChunker), x);
    if outcome.Threw? then Errored(outcome.message, doc.documentId, doc.path, "")
    else if outcome.value == [] then Skipped(doc.documentId, doc.path, doc.content)
    else Aggregated(doc, outcome.value, x.round3)
  }

  /** The aggregation step over the collected chunk results. */
  function Aggregated(doc: Document, rs: seq<ChunkResult>, round3: real -> real): (r: DocResult)
    ensures r.Success? && r.docId == doc.documentId && r.path == doc.path && r.content == doc.content
  {
    var concepts := Aggregate.UniqueByKey(AllConcepts(rs), ConceptKey);
    Success(doc.documentId, doc.path, doc.content, concepts,
            Aggregate.UniqueByKey(AllPrinciples(rs), PrincipleKey),
            Aggregate.UniqueByKey(AllControversies(rs), ControversyKey),
            Quality.CalculateQuality(concepts, round3).avgConceptConfidence)
  }

  /** The three outcomes: an exception anywhere gives an error whose content
      is empty; no concepts in any chunk gives "skipped" with the content;
      otherwise "success" with the content. */
  lemma Outcomes(doc: Document, x: Extractors)
    ensures var r := Process(doc, x);
      && (r.Errored? <==> ChunkResults(Chunker.Chunks(doc.content, DefaultChunker), x).Threw?)
      && (r.Errored? ==> r.content == [])
      && (r.Skipped? <==> forall chunk :: chunk in Chunker.Chunks(doc.content, DefaultChunker) ==>
            Concepts.ConsensusSpec(chunk, x.primary, x.validation, x.tools) == Concepts.Found([]))
      && (!r.Errored? ==> r.content == doc.content)
  {
    var chunks := Chunker.Chunks(doc.content, DefaultChunker);
    NothingCollected(chunks, x);
    assert (forall chunk :: chunk in chunks ==> Concepts.ConsensusSpec(chunk, x.primary, x.validation, x.tools) == Concepts.Found([]))
       <==> (forall i :: 0 <= i < |chunks| ==> Concepts.ConsensusSpec(chunks[i], x.primary, x.validation, x.tools) == Concepts.Found([]));
  }

  /** A success is the aggregation of the chunk loop's results. */
  lemma SuccessIsAggregated(doc: Document, x: Extractors)
    requires Process(doc, x).Success?
    ensures var outcome := ChunkResults(Chunker.Chunks(doc.content, DefaultChunker), x);
      outcome.Done? && outcome.value != [] && Process(doc, x) == Aggregated(doc, outcome.value, x.round3)
  {
  }

  /** The aggregated concepts are unique by lower-cased name, each is the
      last extracted concept with its name, every extracted name is
      represented, and names keep the order of their first extraction. */
  lemma AggregatedConceptsUnique(doc: Document, rs: seq<ChunkResult>, round3: real -> real)
    ensures var all := AllConcepts(rs);
      var out := Aggregated(doc, rs, round3).concepts;
      && |out| <= |all|
      && (forall a, b :: 0 <= a < b < |out| ==> ConceptKey(out[a]) != ConceptKey(out[b]))
      && (forall a :: 0 <= a < |out| ==>
            0 <= Aggregate.LastIndex(all, ConceptKey, ConceptKey(out[a])) && out[a] == all[Aggregate.LastIndex(all, ConceptKey, ConceptKey(out[a]))])
      && (forall c :: c in all ==> exists a :: 0 <= a < |out| && ConceptKey(out[a]) == ConceptKey(c))
      && (forall a, b :: 0 <= a < b < |out| ==>
            Aggregate.FirstIndex(all, ConceptKey, ConceptKey(out[a])) < Aggregate.FirstIndex(all, ConceptKey, ConceptKey(out[b])))
  {
    var all := AllConcepts(rs);
    var out := Aggregated(doc, rs, round3).concepts;
    assert out == Aggregate.UniqueByKey(all, ConceptKey);
    Aggregate.UniqueByKeyContents(all, ConceptKey);
    forall c | c in all
      ensures exists a :: 0 <= a < |out| && ConceptKey(out[a]) == ConceptKey(c)
    {
      Aggregate.UniqueByKeyCovers(all, ConceptKey, c);
    }
  }

  /** The aggregated principles are unique by lower-cased name and the
      controversies by lower-cased topic, each the last one extracted under
      its key. */
  lemma AggregatedPrinciplesAndControversiesUnique(doc: Document, rs: seq<ChunkResult>, round3: real -> real)
    ensures var r := Aggregated(doc, rs, round3);
      var ps := AllPrinciples(rs);
      var cs := AllControversies(rs);
      && (forall a, b :: 0 <= a < b < |r.principles| ==> PrincipleKey(r.principles[a]) != PrincipleKey(r.principles[b]))
      && (forall a :: 0 <= a < |r.principles| ==>
            0 <= Aggregate.LastIndex(ps, PrincipleKey, PrincipleKey(r.principles[a]))
            && r.principles[a] == ps[Aggregate.LastIndex(ps, PrincipleKey, PrincipleKey(r.principles[a]))])
      && (forall a, b :: 0 <= a < b < |r.controversies| ==> ControversyKey(r.controversies[a]) != ControversyKey(r.controversies[b]))
      && (forall a :: 0 <= a < |r.controversies| ==>
            0 <= Aggregate.LastIndex(cs, ControversyKey, ControversyKey(r.controversies[a]))
            && r.controversies[a] == cs[Aggregate.LastIndex(cs, ControversyKey, ControversyKey(r.controversies[a]))])
  {
    Aggregate.UniqueByKeyContents(AllPrinciples(rs), PrincipleKey);
    Aggregate.UniqueByKeyContents(AllControversies(rs), ControversyKey);
  }

  /** Aggregating results that each have concepts gives at least one
      concept, and the quality is the rounded mean confidence of the
      unique concepts. */
  lemma AggregatedQuality(doc: Document, rs: seq<ChunkResult>, round3: real -> real)
    requires rs != [] && forall r :: r in rs ==> r.concepts != []
    ensures var r := Aggregated(doc, rs, round3);
      r.concepts != [] && r.quality == round3(Mean(Quality.Confidences(r.concepts)))
  {
    AllConceptsNonEmpty(rs);
    var all := AllConcepts(rs);
    Aggregate.UniqueByKeyContents(all, ConceptKey);
    var out := Aggregated(doc, rs, round3).concepts;
    var a :| 0 <= a < |out| && ConceptKey(out[a]) == ConceptKey(all[0]);
  }

  /** A successful document has at least one concept, and its quality is
      the rounded mean confidence of its concepts. */
  lemma SuccessQuality(doc: Document, x: Extractors)
    requires Process(doc, x).Success?
    ensures var r := Process(doc, x);
      r.concepts != [] && r.quality == x.round3(Mean(Quality.Confidences(r.concepts)))
  {
    var chunks := Chunker.Chunks(doc.content, DefaultChunker);
    SuccessIsAggregated(doc, x);
    ChunkResultsShape(chunks, x);
    AggregatedQuality(doc, ChunkResults(chunks, x).value, x.round3);
  }

  /** One chunk of the loop. */
  method ProcessChunk(chunk: string, x: Extractors) returns (step: Attempt<Option<ChunkResult>>)
    ensures step == ChunkStep(chunk, x)
  {
    var found := Concepts.ExtractWithValidation(chunk, x.primary, x.validation, x.tools);
    if found.Failed? {
      return Threw(found.message);
    }
    if found.concepts == [] {
      return Done(None);
    }
    var ps := x.principles(found.concepts, chunk);
    if ps.Threw? {
      return Threw(ps.message);
    }
    var cs := x.controversies(found.concepts, chunk);
    if cs.Threw? {
      return Threw(cs.message);
    }
    step := Done(Some(ChunkResult(found.concepts, ps.value, cs.value)));
  }

  /** The chunk loop of process_single_document: it stops at the first
      chunk that raises. */
  method CollectChunks(chunks: seq<string>, x: Extractors) returns (outcome: Attempt<seq<ChunkResult>>)
    ensures outcome == ChunkResults(chunks, x)
  {
    var results: seq<ChunkResult> := [];
    var i := 0;
    while i < |chunks|
      invariant 0 <= i <= |chunks|
      invariant ChunkResults(chunks[..i], x) == Done(results)
    {
      ChunkResultsAt(chunks, i, x);
      var step := ProcessChunk(chunks[i], x);
      if step.Threw? {
        ThrewPersists(chunks, i + 1, x);
        return Threw(step.message);
      }
      if step.value.Some? {
        results := results + [step.value.value];
      }
      i := i + 1;
    }
    assert chunks[..i] == chunks;
    outcome := Done(results);
  }

  /** The loop over one more chunk runs that chunk's step after the others. */
  lemma ChunkResultsAt(chunks: seq<string>, i: int, x: Extractors)
    requires 0 <= i < |chunks|
    ensures var prior := ChunkResults(chunks[..i], x);
      var step := ChunkStep(chunks[i], x);
      ChunkResults(chunks[..i + 1], x) ==
        if prior.Threw? then prior
        else if step.Threw? then Threw(step.message)
        else if step.value.None? then prior
        else Done(prior.value + [step.value.value])
  {
    assert chunks[..i + 1][..i] == chunks[..i];
  }

  /** process_single_document: the chunk loop, then the outcome. */
  method ProcessSingleDocument(doc: Document, x: Extractors) returns (r: DocResult)
    ensures r == Process(doc, x)
  {
    var chunks := Chunker.Chunk(DefaultChunker, doc.content);
    var outcome := CollectChunks(chunks, x);
    if outcome.Threw? {
      return Errored(outcome.message, doc.documentId, doc.path, "");
    }
    if outcome.value == [] {
      return Skipped(doc.documentId, doc.path, doc.content);
    }
    r := Aggregated(doc, outcome.value, x.round3);
  }
}

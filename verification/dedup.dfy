/** The semantic deduplicator (localknow/dedup/deduplicator.py): an
    order-preserving filter that drops a document when the hash of its
    embedding was seen among kept documents, or when its embedding is at
    least 0.85 similar to a kept one. The embedder, the rounded-embedding
    hash and cosine similarity are parameters; the vector store records
    its upsert calls. */
module Dedup {
  import opened Common
  import opened Types

  type Embedding = seq<real>

  /** settings.similarity_threshold. */
  const SimilarityThreshold: real := 0.85
  /** Documents are embedded eight at a time. */
  const BatchSize: int := 8

  /** One call of VectorStore.upsert: four aligned lists. */
  datatype UpsertBatch = UpsertBatch(ids: seq<string>, embeddings: seq<Embedding>,
                                     metadatas: seq<map<string, string>>, documents: seq<string>)

  /** The vector store, reduced to the upsert calls it received. */
  class VectorStore {
    ghost var upserts: seq<UpsertBatch>

    constructor ()
      ensures upserts == []
    {
      upserts := [];
    }

    method Upsert(ids: seq<string>, embeddings: seq<Embedding>, metadatas: seq<map<string, string>>, documents: seq<string>)
      modifies this
      ensures upserts == old(upserts) + [UpsertBatch(ids, embeddings, metadatas, documents)]
    {
      upserts := upserts + [UpsertBatch(ids, embeddings, metadatas, documents)];
    }
  }

  /** np.max of the similarities of `e` to each of `existing`. */
  function MaxSimilarity(e: Embedding, existing: seq<Embedding>, similarity: (Embedding, Embedding) -> real): (m: real)
    requires existing != []
    ensures forall k :: 0 <= k < |existing| ==> similarity(e, existing[k]) <= m
    ensures exists k :: 0 <= k < |existing| && similarity(e, existing[k]) == m
  {
    if |existing| == 1 then similarity(e, existing[0])
    else
      var m := MaxSimilarity(e, existing[..|existing| - 1], similarity);
      var last := similarity(e, existing[|existing| - 1]);
      assert forall k :: 0 <= k < |existing| - 1 ==> existing[..|existing| - 1][k] == existing[k];
      if m >= last then m else last
  }

  /** check_semantic_similarity: false with nothing kept yet, otherwise
      whether the most similar kept embedding reaches the threshold; that
      is, whether some kept embedding does. */
  function CheckSemanticSimilarity(e: Embedding, existing: seq<Embedding>, similarity: (Embedding, Embedding) -> real): (r: bool)
    ensures r <==> exists k :: 0 <= k < |existing| && similarity(e, existing[k]) >= SimilarityThreshold
  {
    existing != [] && MaxSimilarity(e, existing, similarity) >= SimilarityThreshold
  }

  /** The loop state: kept documents, their embeddings, the hashes of those
      embeddings, and (for the proofs) the input positions that were kept. */
  datatype DedupState = DedupState(kept: seq<Document>, embeddings: seq<Embedding>, hashes: set<string>, keptIdx: seq<int>)

  /** The oracles the deduplicator consults. */
  datatype Oracles = Oracles(embed: string -> Embedding, semanticHash: Embedding -> string,
                             similarity: (Embedding, Embedding) -> real)

  /** A state rejects an embedding whose hash it has seen, or that is similar
      enough to an embedding it kept. */
  predicate Rejects(st: DedupState, e: Embedding, o: Oracles)
  {
    o.semanticHash(e) in st.hashes || CheckSemanticSimilarity(e, st.embeddings, o.similarity)
  }

  /** One document at input position `pos`. */
  function Step(st: DedupState, doc: Document, pos: int, o: Oracles): (r: DedupState)
    ensures Rejects(r, o.embed(doc.content), o)
    ensures r == st <==> Rejects(st, o.embed(doc.content), o)
    ensures r.kept == st.kept || r.kept == st.kept + [doc]
  {
    var e := o.embed(doc.content);
    if Rejects(st, e, o) then st
    else DedupState(st.kept + [doc], st.embeddings + [e], st.hashes + {o.semanticHash(e)}, st.keptIdx + [pos])
  }

  /** The deduplicator over the whole input, one document at a time, with
      no reference to batches. */
  function DedupFold(docs: seq<Document>, o: Oracles): (st: DedupState)
    ensures |st.kept| == |st.embeddings| == |st.keptIdx| <= |docs|
  {
    if docs == [] then DedupState([], [], {}, [])
    else Step(DedupFold(docs[..|docs| - 1], o), docs[|docs| - 1], |docs| - 1, o)
  }

  /** The fold's invariant: the kept documents are the input at strictly
      increasing positions (a subsequence in original order), each kept
      embedding is the embedding of its document, the hash set is exactly
      the hashes of kept embeddings, and every kept embedding is less than
      0.85 similar to each one kept before it. */
  ghost predicate Coherent(st: DedupState, docs: seq<Document>, o: Oracles)
  {
    && |st.kept| == |st.embeddings| == |st.keptIdx|
    && Positions(st, docs)
    && HashesOfKept(st, o)
    && Dissimilar(st, o)
  }

  ghost predicate Positions(st: DedupState, docs: seq<Document>)
    requires |st.kept| == |st.keptIdx|
  {
    && (forall k :: 0 <= k < |st.keptIdx| ==> 0 <= st.keptIdx[k] < |docs| && st.kept[k] == docs[st.keptIdx[k]])
    && (forall k, l :: 0 <= k < l < |st.keptIdx| ==> st.keptIdx[k] < st.keptIdx[l])
  }

  ghost predicate HashesOfKept(st: DedupState, o: Oracles)
    requires |st.kept| == |st.embeddings|
  {
    && (forall k :: 0 <= k < |st.embeddings| ==> st.embeddings[k] == o.embed(st.kept[k].content))
    && st.hashes == (set k | 0 <= k < |st.embeddings| :: o.semanticHash(st.embeddings[k]))
  }

  ghost predicate Dissimilar(st: DedupState, o: Oracles)
  {
    forall k, l :: 0 <= k < l < |st.embeddings| ==> o.similarity(st.embeddings[l], st.embeddings[k]) < SimilarityThreshold
  }

  lemma {:induction false} DedupFoldCoherent(docs: seq<Document>, o: Oracles)
    ensures Coherent(DedupFold(docs, o), docs, o)
  {
    if docs != [] {
      var st := DedupFold(docs[..|docs| - 1], o);
      DedupFoldCoherent(docs[..|docs| - 1], o);
      StepPositions(st, docs, o);
      StepHashes(st, docs, o);
      StepDissimilar(st, docs, o);
    }
  }

  /** Every kept document is one of the input documents. */
  lemma KeptAreInput(docs: seq<Document>, o: Oracles, d: Document)
    requires d in DedupFold(docs, o).kept
    ensures d in docs
  {
    var st := DedupFold(docs, o);
    DedupFoldCoherent(docs, o);
    var k :| 0 <= k < |st.kept| && st.kept[k] == d;
    assert d == docs[st.keptIdx[k]];
  }

  lemma StepPositions(st: DedupState, docs: seq<Document>, o: Oracles)
    requires docs != [] && |st.kept| == |st.embeddings| == |st.keptIdx| && Positions(st, docs[..|docs| - 1])
    ensures Positions(Step(st, docs[|docs| - 1], |docs| - 1, o), docs)
  {
    var n := |docs| - 1;
    forall k | 0 <= k < |st.keptIdx|
      ensures st.kept[k] == docs[st.keptIdx[k]]
    {
      assert docs[..n][st.keptIdx[k]] == docs[st.keptIdx[k]];
    }
  }

  lemma StepHashes(st: DedupState, docs: seq<Document>, o: Oracles)
    requires docs != [] && |st.kept| == |st.embeddings| && HashesOfKept(st, o)
    ensures HashesOfKept(Step(st, docs[|docs| - 1], |docs| - 1, o), o)
  {
    var e := o.embed(docs[|docs| - 1].content);
    if !Rejects(st, e, o) {
      var st' := Step(st, docs[|docs| - 1], |docs| - 1, o);
      assert forall k :: 0 <= k < |st.embeddings| ==> st'.embeddings[k] == st.embeddings[k];
      assert st'.embeddings[|st.embeddings|] == e;
    }
  }

  lemma StepDissimilar(st: DedupState, docs: seq<Document>, o: Oracles)
    requires docs != [] && Dissimilar(st, o)
    ensures Dissimilar(Step(st, docs[|docs| - 1], |docs| - 1, o), o)
  {
    var e := o.embed(docs[|docs| - 1].content);
    if !Rejects(st, e, o) {
      assert forall k :: 0 <= k < |st.embeddings| ==> o.similarity(e, st.embeddings[k]) < SimilarityThreshold;
    }
  }

  /** Kept documents are all different input positions, in input order, and
      no two kept documents are 0.85-similar (the later compared with the
      earlier). */
  lemma KeptArePairwiseDissimilar(docs: seq<Document>, o: Oracles, k: int, l: int)
    requires 0 <= k < l < |DedupFold(docs, o).kept|
    ensures DedupFold(docs, o).keptIdx[k] < DedupFold(docs, o).keptIdx[l]
    ensures o.similarity(o.embed(DedupFold(docs, o).kept[l].content), o.embed(DedupFold(docs, o).kept[k].content)) < SimilarityThreshold
  {
    DedupFoldCoherent(docs, o);
  }

  /** The first document is always kept: nothing has been seen before it. */
  lemma FirstDocumentKept(docs: seq<Document>, o: Oracles)
    requires docs != []
    ensures DedupFold(docs, o).kept != [] && DedupFold(docs, o).kept[0] == docs[0]
  {
    DedupFoldCoherent(docs, o);
    DedupFoldGrows(docs, 1, o);
    assert docs[..1] == [docs[0]];
    assert DedupFold(docs[..1], o).kept == [docs[0]];
  }

  /** The state only grows: the state after a prefix is a prefix of the
      final state, and everything kept later comes from later positions. */
  lemma {:induction false} DedupFoldGrows(docs: seq<Document>, m: int, o: Oracles)
    requires 0 <= m <= |docs|
    ensures |DedupFold(docs[..m], o).keptIdx| <= |DedupFold(docs, o).keptIdx|
    ensures var early, late := DedupFold(docs[..m], o), DedupFold(docs, o);
      && late.kept[..|early.kept|] == early.kept
      && late.embeddings[..|early.embeddings|] == early.embeddings
      && late.keptIdx[..|early.keptIdx|] == early.keptIdx
      && early.hashes <= late.hashes
      && (forall k :: |early.keptIdx| <= k < |late.keptIdx| ==> late.keptIdx[k] >= m)
  {
    if m == |docs| {
      assert docs[..m] == docs;
    } else {
      var init := docs[..|docs| - 1];
      assert init[..m] == docs[..m];
      DedupFoldGrows(init, m, o);
      var mid := DedupFold(init, o);
      StepGrows(DedupFold(docs[..m], o), mid, docs[|docs| - 1], |docs| - 1, o);
    }
  }

  /** One step keeps what an earlier state had as a prefix, and anything it
      adds comes from the position of its document. */
  lemma StepGrows(early: DedupState, st: DedupState, doc: Document, pos: int, o: Oracles)
    requires |st.kept| == |st.embeddings| == |st.keptIdx|
    requires |early.kept| == |early.embeddings| == |early.keptIdx| <= |st.keptIdx|
    requires st.kept[..|early.kept|] == early.kept
    requires st.embeddings[..|early.embeddings|] == early.embeddings
    requires st.keptIdx[..|early.keptIdx|] == early.keptIdx
    ensures var late := Step(st, doc, pos, o);
      && |early.keptIdx| <= |late.keptIdx|
      && late.kept[..|early.kept|] == early.kept
      && late.embeddings[..|early.embeddings|] == early.embeddings
      && late.keptIdx[..|early.keptIdx|] == early.keptIdx
      && st.hashes <= late.hashes
      && (forall k :: |st.keptIdx| <= k < |late.keptIdx| ==> late.keptIdx[k] == pos)
      && (forall k :: 0 <= k < |st.keptIdx| ==> late.keptIdx[k] == st.keptIdx[k])
  {
    var late := Step(st, doc, pos, o);
    if late != st {
      assert late.kept[..|early.kept|] == st.kept[..|early.kept|];
      assert late.embeddings[..|early.embeddings|] == st.embeddings[..|early.embeddings|];
      assert late.keptIdx[..|early.keptIdx|] == st.keptIdx[..|early.keptIdx|];
    }
  }

  lemma RejectsGrows(early: DedupState, late: DedupState, e: Embedding, o: Oracles)
    requires early.hashes <= late.hashes
    requires |early.embeddings| <= |late.embeddings| && late.embeddings[..|early.embeddings|] == early.embeddings
    requires Rejects(early, e, o)
    ensures Rejects(late, e, o)
  {
    if !(o.semanticHash(e) in early.hashes) {
      var k :| 0 <= k < |early.embeddings| && o.similarity(e, early.embeddings[k]) >= SimilarityThreshold;
      assert late.embeddings[k] == early.embeddings[k];
    }
  }

  /** Of two documents with the same content only the first can be kept:
      once a content has been seen, its embedding is rejected for good,
      by the hash short-circuit if it was kept, by similarity or hash
      otherwise. */
  lemma SameContentKeptOnce(docs: seq<Document>, a: int, b: int, o: Oracles)
    requires 0 <= a < b < |docs| && docs[a].content == docs[b].content
    ensures b !in DedupFold(docs, o).keptIdx
  {
    var e := o.embed(docs[a].content);
    SeenIsRejected(docs, a, o);
    RejectedStaysRejected(docs[..b], a + 1, e, o);
    assert docs[..b][..a + 1] == docs[..a + 1];
    assert docs[..b][..b] == docs[..b];
    NotKeptAt(docs, b, o);
  }

  /** Right after a document is processed, its embedding is rejected. */
  lemma SeenIsRejected(docs: seq<Document>, a: int, o: Oracles)
    requires 0 <= a < |docs|
    ensures Rejects(DedupFold(docs[..a + 1], o), o.embed(docs[a].content), o)
  {
    var e := o.embed(docs[a].content);
    var before := DedupFold(docs[..a], o);
    assert docs[..a + 1][..a] == docs[..a];
    if !Rejects(before, e, o) {
      assert o.semanticHash(e) in DedupFold(docs[..a + 1], o).hashes;
    }
  }

  lemma RejectedStaysRejected(docs: seq<Document>, m: int, e: Embedding, o: Oracles)
    requires 0 <= m <= |docs|
    requires Rejects(DedupFold(docs[..m], o), e, o)
    ensures Rejects(DedupFold(docs, o), e, o)
  {
    DedupFoldGrows(docs, m, o);
    RejectsGrows(DedupFold(docs[..m], o), DedupFold(docs, o), e, o);
  }

  /** A document whose embedding is already rejected when it is reached is
      not kept. */
  lemma NotKeptAt(docs: seq<Document>, b: int, o: Oracles)
    requires 0 <= b < |docs|
    requires Rejects(DedupFold(docs[..b], o), o.embed(docs[b].content), o)
    ensures b !in DedupFold(docs, o).keptIdx
  {
    var pastB := DedupFold(docs[..b + 1], o);
    FoldSnoc(docs, b, o);
    assert pastB == DedupFold(docs[..b], o);
    DedupFoldCoherent(docs[..b], o);
    DedupFoldGrows(docs, b + 1, o);
    var final := DedupFold(docs, o);
    forall k | 0 <= k < |final.keptIdx|
      ensures final.keptIdx[k] != b
    {
      if k < |pastB.keptIdx| {
        assert final.keptIdx[k] == pastB.keptIdx[k];
      }
    }
  }

  /** A document whose embedding is not rejected at its turn is kept. */
  lemma KeptUnlessRejected(docs: seq<Document>, b: int, o: Oracles)
    requires 0 <= b < |docs|
    requires !Rejects(DedupFold(docs[..b], o), o.embed(docs[b].content), o)
    ensures b in DedupFold(docs, o).keptIdx
  {
    var before := DedupFold(docs[..b], o);
    FoldSnoc(docs, b, o);
    var pastB := DedupFold(docs[..b + 1], o);
    assert pastB.keptIdx == before.keptIdx + [b];
    var n := |pastB.keptIdx|;
    assert pastB.keptIdx[n - 1] == b;
    DedupFoldGrows(docs, b + 1, o);
    var late := DedupFold(docs, o).keptIdx;
    assert n <= |late| && late[..n] == pastB.keptIdx;
    assert late[..n][n - 1] == b;
  }

  /** A document is dropped exactly when, at its turn, its embedding's hash
      was already seen or it was similar enough to an earlier kept one. */
  lemma DroppedIffRejected(docs: seq<Document>, b: int, o: Oracles)
    requires 0 <= b < |docs|
    ensures b !in DedupFold(docs, o).keptIdx <==> Rejects(DedupFold(docs[..b], o), o.embed(docs[b].content), o)
  {
    if Rejects(DedupFold(docs[..b], o), o.embed(docs[b].content), o) {
      NotKeptAt(docs, b, o);
    } else {
      KeptUnlessRejected(docs, b, o);
    }
  }

  function Ids(docs: seq<Document>): (r: seq<string>)
    ensures |r| == |docs| && forall k :: 0 <= k < |docs| ==> r[k] == docs[k].documentId
  {
    seq(|docs|, k requires 0 <= k < |docs| => docs[k].documentId)
  }

  function Metadatas(docs: seq<Document>): (r: seq<map<string, string>>)
    ensures |r| == |docs| && forall k :: 0 <= k < |docs| ==> r[k] == docs[k].metadata
  {
    seq(|docs|, k requires 0 <= k < |docs| => docs[k].metadata)
  }

  function Contents(docs: seq<Document>): (r: seq<string>)
    ensures |r| == |docs| && forall k :: 0 <= k < |docs| ==> r[k] == docs[k].content
  {
    seq(|docs|, k requires 0 <= k < |docs| => docs[k].content)
  }

  /** The upserts the deduplicator makes once it has folded to `st`: one
      batch of everything kept, or none when nothing was kept. */
  function Upserted(st: DedupState): (r: seq<UpsertBatch>)
    ensures st.kept == [] <==> r == []
  {
    if st.kept == [] then []
    else [UpsertBatch(Ids(st.kept), st.embeddings, Metadatas(st.kept), Contents(st.kept))]
  }

  /** detect_semantic_duplicates: batches of eight, one document at a time
      within a batch, then one upsert of everything kept. The result is the
      batch-free fold, so batch boundaries do not affect any decision. */
  method DetectSemanticDuplicates(documents: seq<Document>, o: Oracles, vs: VectorStore) returns (uniqueDocs: seq<Document>)
    modifies vs
    ensures uniqueDocs == DedupFold(documents, o).kept
    ensures documents == [] ==> uniqueDocs == []
    ensures uniqueDocs == [] ==> vs.upserts == old(vs.upserts)
    ensures uniqueDocs != [] ==>
      vs.upserts == old(vs.upserts) + [UpsertBatch(Ids(uniqueDocs), DedupFold(documents, o).embeddings, Metadatas(uniqueDocs), Contents(uniqueDocs))]
    ensures vs.upserts == old(vs.upserts) + Upserted(DedupFold(documents, o))
  {
    if documents == [] {
      return [];
    }
    uniqueDocs := [];
    var existingEmbeddings: seq<Embedding> := [];
    var processedHashes: set<string> := {};
    ghost var keptIdx: seq<int> := [];
    var i := 0;
    while i < |documents|
      invariant 0 <= i
      invariant DedupFold(documents[..Min(i, |documents|)], o) == DedupState(uniqueDocs, existingEmbeddings, processedHashes, keptIdx)
      invariant vs.upserts == old(vs.upserts)
      decreases |documents| - i
    {
      uniqueDocs, existingEmbeddings, processedHashes, keptIdx :=
        ScanBatch(documents, i, o, uniqueDocs, existingEmbeddings, processedHashes, keptIdx);
      i := i + BatchSize;
    }
    assert documents[..Min(i, |documents|)] == documents;
    if uniqueDocs != [] {
      var ids := seq(|uniqueDocs|, k requires 0 <= k < |uniqueDocs| => uniqueDocs[k].documentId);
      var metas := seq(|uniqueDocs|, k requires 0 <= k < |uniqueDocs| => uniqueDocs[k].metadata);
      var docs := seq(|uniqueDocs|, k requires 0 <= k < |uniqueDocs| => uniqueDocs[k].content);
      vs.Upsert(ids, existingEmbeddings, metas, docs);
    }
  }

  /** The fold over one more document is one more step. */
  lemma FoldSnoc(documents: seq<Document>, n: int, o: Oracles)
    requires 0 <= n < |documents|
    ensures DedupFold(documents[..n + 1], o) == Step(DedupFold(documents[..n], o), documents[n], n, o)
  {
    assert documents[..n + 1][..n] == documents[..n];
  }

  /** One batch of detect_semantic_duplicates: the documents from `i` on,
      at most eight of them, taken one at a time. The batch's single encode
      call is modelled as one embedding per document. */
  method ScanBatch(documents: seq<Document>, i: int, o: Oracles,
                   uniqueDocs: seq<Document>, existingEmbeddings: seq<Embedding>, processedHashes: set<string>, ghost keptIdx: seq<int>)
    returns (uniqueDocs': seq<Document>, existingEmbeddings': seq<Embedding>, processedHashes': set<string>, ghost keptIdx': seq<int>)
    requires 0 <= i < |documents|
    requires DedupFold(documents[..i], o) == DedupState(uniqueDocs, existingEmbeddings, processedHashes, keptIdx)
    ensures var st := DedupFold(documents[..Min(i + BatchSize, |documents|)], o);
      uniqueDocs' == st.kept && existingEmbeddings' == st.embeddings && processedHashes' == st.hashes
    ensures DedupFold(documents[..Min(i + BatchSize, |documents|)], o) == DedupState(uniqueDocs', existingEmbeddings', processedHashes', keptIdx')
  {
    var end := Min(i + BatchSize, |documents|);
    uniqueDocs', existingEmbeddings', processedHashes', keptIdx' := uniqueDocs, existingEmbeddings, processedHashes, keptIdx;
    var k := i;
    while k < end
      invariant i <= k <= end
      invariant DedupFold(documents[..k], o) == DedupState(uniqueDocs', existingEmbeddings', processedHashes', keptIdx')
    {
      uniqueDocs', existingEmbeddings', processedHashes', keptIdx' :=
        KeepIfNew(documents, k, o, uniqueDocs', existingEmbeddings', processedHashes', keptIdx');
      k := k + 1;
    }
  }

  /** The body of the inner loop: hash short-circuit, then the similarity
      scan against the kept embeddings. */
  method KeepIfNew(documents: seq<Document>, pos: int, o: Oracles,
                   uniqueDocs: seq<Document>, existingEmbeddings: seq<Embedding>, processedHashes: set<string>, ghost keptIdx: seq<int>)
    returns (uniqueDocs': seq<Document>, existingEmbeddings': seq<Embedding>, processedHashes': set<string>, ghost keptIdx': seq<int>)
    requires 0 <= pos < |documents|
    requires DedupFold(documents[..pos], o) == DedupState(uniqueDocs, existingEmbeddings, processedHashes, keptIdx)
    ensures var st := DedupFold(documents[..pos + 1], o);
      uniqueDocs' == st.kept && existingEmbeddings' == st.embeddings && processedHashes' == st.hashes
    ensures DedupFold(documents[..pos + 1], o) == DedupState(uniqueDocs', existingEmbeddings', processedHashes', keptIdx')
  {
    FoldSnoc(documents, pos, o);
    var doc := documents[pos];
    var embedding := o.embed(doc.content);
    uniqueDocs', existingEmbeddings', processedHashes', keptIdx' := uniqueDocs, existingEmbeddings, processedHashes, keptIdx;
    var contentHash := o.semanticHash(embedding);
    if contentHash !in processedHashes {
      var isDuplicate := CheckSemanticSimilarity(embedding, existingEmbeddings, o.similarity);
      if !isDuplicate {
        uniqueDocs' := uniqueDocs + [doc];
        existingEmbeddings' := existingEmbeddings + [embedding];
        processedHashes' := processedHashes + {contentHash};
        keptIdx' := keptIdx + [pos];
      }
    }
  }

  /** The upserted lists are aligned with the result: the k-th id, embedding,
      metadata and content all belong to the k-th kept document. */
  lemma UpsertIsAligned(documents: seq<Document>, o: Oracles, k: int)
    requires 0 <= k < |DedupFold(documents, o).kept|
    ensures var st := DedupFold(documents, o);
      && |st.embeddings| == |st.kept|
      && st.embeddings[k] == o.embed(st.kept[k].content)
      && Ids(st.kept)[k] == st.kept[k].documentId
  {
    DedupFoldCoherent(documents, o);
  }
}

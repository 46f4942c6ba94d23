/** build_documents, shared by both pipelines
    (localknow/pipeline/orchestrator.py, intellidoc/pipeline/orchestrator.py):
    every path whose text is non-empty becomes a Document. The file reader
    (read_any, None for a missing, oversized or unsupported file) and the
    uuid5 of a path are the parameters `reader` and `uuid`. */
module Documents {
  import opened Common
  import opened Types

  /** The document built for a path whose text is `content`. */
  function DocumentFor(p: string, content: string, uuid: string -> string): (d: Document)
    ensures d.path == p && d.content == content && d.documentId == uuid(p)
    ensures d.metadata == map["path" := p]
  {
    Document(uuid(p), p, content, map["path" := p])
  }

  /** `if content:` — the reader gave some non-empty text. */
  predicate Readable(p: string, reader: string -> Option<string>)
  {
    reader(p).Some? && reader(p).value != []
  }

  function Build(paths: seq<string>, reader: string -> Option<string>, uuid: string -> string): (r: seq<Document>)
    ensures |r| <= |paths|
  {
    if paths == [] then []
    else
      var p := paths[|paths| - 1];
      Build(paths[..|paths| - 1], reader, uuid) + (if Readable(p, reader) then [DocumentFor(p, reader(p).value, uuid)] else [])
  }

  /** The documents are the readable paths, in input order, each with the
      reader's text, the path's id and {"path": p} as metadata. */
  lemma {:induction false} BuildKeepsReadable(paths: seq<string>, reader: string -> Option<string>, uuid: string -> string)
    ensures |Build(paths, reader, uuid)| <= |paths|
    ensures forall d :: d in Build(paths, reader, uuid) <==>
      d.path in paths && Readable(d.path, reader) && d == DocumentFor(d.path, reader(d.path).value, uuid)
  {
    if paths != [] {
      var init := paths[..|paths| - 1];
      BuildKeepsReadable(init, reader, uuid);
      assert paths == init + [paths[|paths| - 1]];
    }
  }

  /** Order is kept: building a concatenation concatenates the builds. */
  lemma {:induction false} BuildAppend(a: seq<string>, b: seq<string>, reader: string -> Option<string>, uuid: string -> string)
    ensures Build(a + b, reader, uuid) == Build(a, reader, uuid) + Build(b, reader, uuid)
  {
    if b == [] {
      assert a + b == a;
    } else {
      assert (a + b)[..|a + b| - 1] == a + b[..|b| - 1];
      BuildAppend(a, b[..|b| - 1], reader, uuid);
    }
  }

  /** One path: a one-element list when readable, else empty. */
  lemma BuildSingle(p: string, reader: string -> Option<string>, uuid: string -> string)
    ensures Readable(p, reader) ==> Build([p], reader, uuid) == [DocumentFor(p, reader(p).value, uuid)]
    ensures !Readable(p, reader) ==> Build([p], reader, uuid) == []
  {
    assert [p][..0] == [];
  }

  /** build_documents. */
  method BuildDocuments(paths: seq<string>, reader: string -> Option<string>, uuid: string -> string)
    returns (docs: seq<Document>)
    ensures docs == Build(paths, reader, uuid)
  {
    docs := [];
    var i := 0;
    while i < |paths|
      invariant 0 <= i <= |paths|
      invariant docs == Build(paths[..i], reader, uuid)
    {
      assert paths[..i + 1][..i] == paths[..i];
      var p := paths[i];
      var content := reader(p);
      if content.Some? && content.value != [] {
        docs := docs + [DocumentFor(p, content.value, uuid)];
      }
      i := i + 1;
    }
    assert paths[..i] == paths;
  }
}

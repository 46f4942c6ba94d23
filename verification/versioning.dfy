/** The content versioner (intellidoc/persist/versioning.py): a table of
    per-path fingerprints and the changed/unchanged split of a path list.
    The SQLite table is the map `files`; os.stat, the reader and the
    SHA-256 hex digest of the UTF-8 encoded content are parameters. */
module Versioning {
  import opened Common

  /** What os.stat reports for a path: modification time and size. */
  datatype FileStat = FileStat(mtime: real, size: int)

  /** One row of the `files` table. */
  datatype FileRow = FileRow(mtime: real, size: int, contentHash: string)

  /** Modification times closer than this count as equal. */
  const MtimeTolerance: real := 0.000001

  /** A stored row agrees with the current stat and content hash. */
  predicate Matches(row: FileRow, st: FileStat, contentHash: string)
  {
    Abs(row.mtime - st.mtime) <= MtimeTolerance && row.size == st.size && row.contentHash == contentHash
  }

  /** `path` has a stored row and that row still matches the file. */
  predicate IsUnchanged(files: map<string, FileRow>, path: string, st: FileStat, contentHash: string)
  {
    path in files && Matches(files[path], st, contentHash)
  }

  /** The (new_or_modified, unmodified) pair detect_changes returns for
      `paths`, or None when the reader yields None for some path (the
      `.encode` call then raises and no lists are returned). */
  function Partition(files: map<string, FileRow>, paths: seq<string>, stat: string -> FileStat,
                     reader: string -> Option<string>, digest: string -> string): (r: Option<(seq<string>, seq<string>)>)
    ensures r.Some? ==> |r.value.0| + |r.value.1| == |paths|
  {
    if paths == [] then Some(([], []))
    else
      match Partition(files, paths[..|paths| - 1], stat, reader, digest)
      case None => None
      case Some((changed, unmodified)) =>
        var p := paths[|paths| - 1];
        match reader(p)
        case None => None
        case Some(content) =>
          if IsUnchanged(files, p, stat(p), digest(content)) then Some((changed, unmodified + [p]))
          else Some((changed + [p], unmodified))
  }

  /** detect_changes fails exactly when the reader fails on some path; when
      it succeeds, every input path lands in exactly one of the two lists
      (in the unchanged one iff its stored row matches), and the two lists
      together are as long as the input. */
  lemma {:induction false} PartitionSplits(files: map<string, FileRow>, paths: seq<string>, stat: string -> FileStat,
                                           reader: string -> Option<string>, digest: string -> string)
    ensures Partition(files, paths, stat, reader, digest).Some? <==> forall p :: p in paths ==> reader(p).Some?
    ensures Partition(files, paths, stat, reader, digest).Some? ==>
      var (changed, unmodified) := Partition(files, paths, stat, reader, digest).value;
      && |changed| + |unmodified| == |paths|
      && (forall p :: p in unmodified <==> p in paths && IsUnchanged(files, p, stat(p), digest(reader(p).value)))
      && (forall p :: p in changed <==> p in paths && !IsUnchanged(files, p, stat(p), digest(reader(p).value)))
  {
    if paths != [] {
      var init := paths[..|paths| - 1];
      PartitionSplits(files, init, stat, reader, digest);
      assert paths == init + [paths[|paths| - 1]];
      assert forall p :: p in paths <==> p in init || p == paths[|paths| - 1];
    }
  }

  /** A path without a stored row is always reported as new or modified. */
  lemma UnknownPathIsNew(files: map<string, FileRow>, paths: seq<string>, stat: string -> FileStat,
                         reader: string -> Option<string>, digest: string -> string, p: string)
    requires p in paths && p !in files
    requires Partition(files, paths, stat, reader, digest).Some?
    ensures p in Partition(files, paths, stat, reader, digest).value.0
  {
    PartitionSplits(files, paths, stat, reader, digest);
  }

  class VersionTracker {
    /** The `files` table: path -> (mtime, size, content_hash). */
    var files: map<string, FileRow>

    constructor (table: map<string, FileRow>)
      ensures files == table
    {
      files := table;
    }

    /** REPLACE INTO files: the row for `path` becomes the current stat and
        the digest of `content`; every other row stays as it was. */
    method RecordFile(path: string, content: string, st: FileStat, digest: string -> string)
      modifies this
      ensures files == old(files)[path := FileRow(st.mtime, st.size, digest(content))]
    {
      files := files[path := FileRow(st.mtime, st.size, digest(content))];
    }

    /** Split `paths` into new-or-modified and unmodified, in input order.
        `ok` is false when the reader returned None for a path (the source
        raises there). Reads the table only. */
    method DetectChanges(paths: seq<string>, stat: string -> FileStat,
                         reader: string -> Option<string>, digest: string -> string)
      returns (ok: bool, newOrModified: seq<string>, unmodified: seq<string>)
      ensures ok <==> forall p :: p in paths ==> reader(p).Some?
      ensures ok ==> Partition(files, paths, stat, reader, digest) == Some((newOrModified, unmodified))
    {
      newOrModified, unmodified := [], [];
      var i := 0;
      while i < |paths|
        invariant 0 <= i <= |paths|
        invariant Partition(files, paths[..i], stat, reader, digest) == Some((newOrModified, unmodified))
      {
        var p := paths[i];
        var st := stat(p);
        var content := reader(p);
        assert paths[..i + 1][..i] == paths[..i];
        if content.None? {
          assert Partition(files, paths[..i + 1], stat, reader, digest).None?;
          PartitionPrefixFails(files, paths, i + 1, stat, reader, digest);
          PartitionSplits(files, paths, stat, reader, digest);
          return false, [], [];
        }
        var contentHash := digest(content.value);
        if !(p in files) {
          newOrModified := newOrModified + [p];
        } else if Abs(files[p].mtime - st.mtime) > MtimeTolerance || files[p].size != st.size || files[p].contentHash != contentHash {
          newOrModified := newOrModified + [p];
        } else {
          unmodified := unmodified + [p];
        }
        i := i + 1;
      }
      assert paths[..i] == paths;
      PartitionSplits(files, paths, stat, reader, digest);
      ok := true;
    }
  }

  /** Once a prefix of the path list fails, the whole list fails. */
  lemma {:induction false} PartitionPrefixFails(files: map<string, FileRow>, paths: seq<string>, k: int, stat: string -> FileStat,
                                                reader: string -> Option<string>, digest: string -> string)
    requires 0 <= k <= |paths|
    requires Partition(files, paths[..k], stat, reader, digest).None?
    ensures Partition(files, paths, stat, reader, digest).None?
    decreases |paths| - k
  {
    if k < |paths| {
      assert paths[..k + 1][..k] == paths[..k];
      PartitionPrefixFails(files, paths, k + 1, stat, reader, digest);
    } else {
      assert paths[..k] == paths;
    }
  }

  /** Idempotence: after record_file(p, c), a later detect_changes that sees
      the same stat for p and reads c again puts p in the unchanged list. */
  lemma RecordedFileIsUnchanged(files: map<string, FileRow>, p: string, content: string, st: FileStat,
                                paths: seq<string>, stat: string -> FileStat,
                                reader: string -> Option<string>, digest: string -> string)
    requires p in paths && stat(p) == st && reader(p) == Some(content)
    requires Partition(files[p := FileRow(st.mtime, st.size, digest(content))], paths, stat, reader, digest).Some?
    ensures p in Partition(files[p := FileRow(st.mtime, st.size, digest(content))], paths, stat, reader, digest).value.1
    ensures p !in Partition(files[p := FileRow(st.mtime, st.size, digest(content))], paths, stat, reader, digest).value.0
  {
    PartitionSplits(files[p := FileRow(st.mtime, st.size, digest(content))], paths, stat, reader, digest);
  }
}

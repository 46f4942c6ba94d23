/** The resumable-processing checkpoint of both pipelines
    (localknow/pipeline/orchestrator.py and intellidoc/pipeline/orchestrator.py,
    class CheckpointManager): one pickle file per input folder holding the
    processed paths and a results dictionary. The file is modelled by its
    state; `R` is what the pipeline stores as results. */
module Checkpoint {
  import opened Common

  /** The checkpoint file: missing, written by save_checkpoint, or present
      but unreadable (pickle.load raises). */
  datatype FileState<R> = Absent | Written(paths: set<string>, results: R) | Corrupt

  /** What load_checkpoint returns: the processed paths and the results
      dictionary, None standing for the empty dictionary `{}`. */
  datatype Loaded<R> = Loaded(processedPaths: set<string>, results: Option<R>)

  function LoadOf<R>(file: FileState<R>): (l: Loaded<R>)
    ensures file.Written? <==> l.results.Some?
    ensures !file.Written? ==> l.processedPaths == {}
  {
    if file.Written? then Loaded(file.paths, Some(file.results)) else Loaded({}, None)
  }

  /** Whatever the file held, a save is read back exactly. */
  lemma LoadAfterSave<R>(paths: set<string>, results: R)
    ensures LoadOf(Written(paths, results)) == Loaded(paths, Some(results))
  {
  }

  /** After a clear, and when the file is missing or unreadable, loading
      gives no paths and no results. */
  lemma LoadWhenEmpty<R>(file: FileState<R>)
    requires !file.Written?
    ensures LoadOf(file) == Loaded({}, None)
  {
  }

  class CheckpointManager<R> {
    var file: FileState<R>
    /** Every save, oldest first. */
    ghost var saves: seq<(set<string>, R)>

    constructor (file: FileState<R>)
      ensures this.file == file && saves == []
    {
      this.file := file;
      saves := [];
    }

    /** save_checkpoint: the file now holds exactly these paths and results. */
    method SaveCheckpoint(processedPaths: set<string>, results: R)
      modifies this
      ensures file == Written(processedPaths, results)
      ensures saves == old(saves) + [(processedPaths, results)]
    {
      file := Written(processedPaths, results);
      saves := saves + [(processedPaths, results)];
    }

    /** load_checkpoint: the stored state, or nothing when the file is
        missing or unreadable. */
    method LoadCheckpoint() returns (l: Loaded<R>)
      ensures l == LoadOf(file)
      ensures file.Written? ==> l == Loaded(file.paths, Some(file.results))
      ensures !file.Written? ==> l == Loaded({}, None)
    {
      if file.Absent? {
        return Loaded({}, None);
      }
      if file.Corrupt? {
        return Loaded({}, None);
      }
      l := Loaded(file.paths, Some(file.results));
    }

    /** clear_checkpoint: the file is removed if present. */
    method ClearCheckpoint()
      modifies this
      ensures file == Absent && saves == old(saves)
    {
      if !file.Absent? {
        file := Absent;
      }
    }
  }
}

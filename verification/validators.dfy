/** The folder validator (localknow/core/validators.py): every file of a
    directory walk is either a valid path or the subject of exactly one
    issue, decided by a fixed cascade of checks. The walk itself, the file
    size lookup (os.path.getsize) and the MIME guess (mimetypes.guess_type)
    are parameters. */
module Validators {
  import opened Common

  const SupportedExts: set<string> := {".pdf", ".txt", ".md", ".csv", ".docx"}
  /** Extensions accepted without a known MIME type. */
  const MimeOptionalExts: set<string> := {".md", ".txt"}
  /** settings.max_doc_bytes: 50 MiB. */
  const MaxDocBytes: int := 50 * 1024 * 1024

  /** One directory of an os.walk listing: its path and its file names. */
  datatype WalkEntry = WalkEntry(root: string, files: seq<string>)

  /** A file of the walk: its joined path and its bare name. */
  datatype WalkedFile = WalkedFile(path: string, name: string)

  /** Why a file was rejected, in the order the rules apply. */
  datatype Failure = Unreadable | UnsupportedExtension(ext: string) | EmptyFile | TooLarge(size: int) | UnknownMime

  datatype ValidationIssue = ValidationIssue(path: string, failure: Failure)

  /** The `reason` text the source stores for each failure. */
  function ReasonText(f: Failure): string
  {
    match f
    case Unreadable => "unreadable"
    case UnsupportedExtension(ext) => "unsupported extension: " + ext
    case EmptyFile => "empty file"
    case TooLarge(size) => "file too large: " + IntToString(size)
    case UnknownMime => "unknown MIME"
  }

  /** os.path.join(root, name) for a bare file name. */
  function Join(root: string, name: string): string
  {
    if root == [] || root[|root| - 1] == '/' then root + name else root + "/" + name
  }

  predicate AllDots(s: string)
  {
    forall i :: 0 <= i < |s| ==> s[i] == '.'
  }

  /** os.path.splitext(name)[1] for a name without '/': from the last dot,
      unless everything before that dot is dots (".bashrc" has none). */
  function SplitExt(name: string): (ext: string)
    ensures ext == [] || (ext[0] == '.' && '.' !in ext[1..])
    ensures |ext| <= |name| && (ext == [] || ext == name[|name| - |ext|..])
  {
    var d := RFind(name, '.');
    if d <= 0 || AllDots(name[..d]) then "" else name[d..]
  }

  /** The lower-cased extension validate_folder tests. */
  function ExtOf(name: string): string
  {
    Lower(SplitExt(name))
  }

  /** The first failing check for one file, or None when it is valid. */
  function Verdict(f: WalkedFile, getsize: string -> Option<int>, guessType: string -> Option<string>): (r: Option<Failure>)
    ensures r.None? ==> getsize(f.path).Some? && 0 < getsize(f.path).value <= MaxDocBytes && ExtOf(f.name) in SupportedExts
    ensures getsize(f.path).None? ==> r == Some(Unreadable)
  {
    var ext := ExtOf(f.name);
    match getsize(f.path)
    case None => Some(Unreadable)
    case Some(size) =>
      if ext !in SupportedExts then Some(UnsupportedExtension(ext))
      else if size <= 0 then Some(EmptyFile)
      else if size > MaxDocBytes then Some(TooLarge(size))
      else if guessType(f.path).None? && ext !in MimeOptionalExts then Some(UnknownMime)
      else None
  }

  /** The rules apply in a fixed order and the first failing one decides:
      unreadable, then unsupported extension, then empty, then too large,
      then unknown MIME; a file passing all five is valid. */
  lemma VerdictCascade(f: WalkedFile, getsize: string -> Option<int>, guessType: string -> Option<string>)
    ensures var r := Verdict(f, getsize, guessType);
      && (r == Some(Unreadable) <==> getsize(f.path).None?)
      && (r.Some? && r.value.UnsupportedExtension? <==>
            getsize(f.path).Some? && ExtOf(f.name) !in SupportedExts)
      && (r.Some? && r.value.UnsupportedExtension? ==> r.value.ext == ExtOf(f.name))
      && (r == Some(EmptyFile) <==>
            getsize(f.path).Some? && ExtOf(f.name) in SupportedExts && getsize(f.path).value <= 0)
      && (r.Some? && r.value.TooLarge? <==>
            getsize(f.path).Some? && ExtOf(f.name) in SupportedExts && getsize(f.path).value > MaxDocBytes)
      && (r.Some? && r.value.TooLarge? ==> r.value.size == getsize(f.path).value)
      && (r == None <==>
            getsize(f.path).Some?
            && ExtOf(f.name) in SupportedExts
            && 0 < getsize(f.path).value <= MaxDocBytes
            && (guessType(f.path).Some? || ExtOf(f.name) in MimeOptionalExts))
  {
  }

  /** The files of one directory, in listing order. */
  function DirFiles(root: string, names: seq<string>): (r: seq<WalkedFile>)
    ensures |r| == |names|
  {
    if names == [] then []
    else DirFiles(root, names[..|names| - 1]) + [WalkedFile(Join(root, names[|names| - 1]), names[|names| - 1])]
  }

  /** Every file of the walk, in walk order. */
  function WalkFiles(walk: seq<WalkEntry>): seq<WalkedFile>
  {
    if walk == [] then []
    else WalkFiles(walk[..|walk| - 1]) + DirFiles(walk[|walk| - 1].root, walk[|walk| - 1].files)
  }

  /** The (valid_paths, issues) pair for a list of files, in order, for a
      per-file check `check` (None: valid; Some(failure): an issue). */
  function ValidateAll(files: seq<WalkedFile>, check: WalkedFile -> Option<Failure>): (r: (seq<string>, seq<ValidationIssue>))
    ensures |r.0| + |r.1| == |files|
  {
    if files == [] then ([], [])
    else
      var (valid, issues) := ValidateAll(files[..|files| - 1], check);
      var f := files[|files| - 1];
      match check(f)
      case None => (valid + [f.path], issues)
      case Some(failure) => (valid, issues + [ValidationIssue(f.path, failure)])
  }

  /** Validating one more file appends its path or its issue. */
  lemma ValidateAllSnoc(files: seq<WalkedFile>, f: WalkedFile, check: WalkedFile -> Option<Failure>)
    ensures var (valid, issues) := ValidateAll(files, check);
      ValidateAll(files + [f], check)
        == if check(f).None? then (valid + [f.path], issues) else (valid, issues + [ValidationIssue(f.path, check(f).value)])
  {
    assert (files + [f])[..|files|] == files;
  }

  /** One more file of a directory: its path or its issue is appended. */
  lemma DirStep(seen: seq<WalkedFile>, root: string, names: seq<string>, j: int, check: WalkedFile -> Option<Failure>)
    requires 0 <= j < |names|
    ensures var f := WalkedFile(Join(root, names[j]), names[j]);
      var (valid, issues) := ValidateAll(seen + DirFiles(root, names[..j]), check);
      ValidateAll(seen + DirFiles(root, names[..j + 1]), check)
        == if check(f).None? then (valid + [f.path], issues) else (valid, issues + [ValidationIssue(f.path, check(f).value)])
  {
    assert names[..j + 1][..j] == names[..j];
    var f := WalkedFile(Join(root, names[j]), names[j]);
    assert seen + DirFiles(root, names[..j + 1]) == (seen + DirFiles(root, names[..j])) + [f];
    ValidateAllSnoc(seen + DirFiles(root, names[..j]), f, check);
  }

  /** validate_folder's per-file check: the cascade of Verdict. */
  function FolderCheck(getsize: string -> Option<int>, guessType: string -> Option<string>): WalkedFile -> Option<Failure>
  {
    f => Verdict(f, getsize, guessType)
  }

  /** Each file ends in exactly one of the two lists: the lengths add up,
      every valid path belongs to a file the rules passed, and every issue
      carries the failing rule for a file of the walk. */
  lemma {:induction false} ValidateAllSplits(files: seq<WalkedFile>, check: WalkedFile -> Option<Failure>)
    ensures var (valid, issues) := ValidateAll(files, check);
      && |valid| + |issues| == |files|
      && (forall p :: p in valid ==> exists f :: f in files && f.path == p && check(f).None?)
      && (forall e :: e in issues ==> exists f :: f in files && f.path == e.path && check(f) == Some(e.failure))
  {
    if files != [] {
      var init := files[..|files| - 1];
      ValidateAllSplits(init, check);
      assert forall f :: f in init ==> f in files;
    }
  }

  /** A file whose check passes is listed as valid, and one whose check
      fails is listed with that failure. */
  lemma {:induction false} ValidateAllCovers(files: seq<WalkedFile>, check: WalkedFile -> Option<Failure>, k: int)
    requires 0 <= k < |files|
    ensures check(files[k]).None? ==> files[k].path in ValidateAll(files, check).0
    ensures check(files[k]).Some? ==> ValidationIssue(files[k].path, check(files[k]).value) in ValidateAll(files, check).1
  {
    if k < |files| - 1 {
      ValidateAllCovers(files[..|files| - 1], check, k);
    }
  }

  /** A valid path has a supported extension, a size in (0, max_doc_bytes],
      and a known MIME type unless it is Markdown or plain text. */
  lemma ValidPathsAreAcceptable(files: seq<WalkedFile>, getsize: string -> Option<int>, guessType: string -> Option<string>, p: string)
    requires p in ValidateAll(files, FolderCheck(getsize, guessType)).0
    ensures exists f :: f in files && f.path == p && Acceptable(f, getsize, guessType)
  {
    ValidateAllSplits(files, FolderCheck(getsize, guessType));
    var f :| f in files && f.path == p && FolderCheck(getsize, guessType)(f).None?;
    VerdictCascade(f, getsize, guessType);
  }

  predicate Acceptable(f: WalkedFile, getsize: string -> Option<int>, guessType: string -> Option<string>)
  {
    && ExtOf(f.name) in SupportedExts
    && getsize(f.path).Some? && 0 < getsize(f.path).value <= MaxDocBytes
    && (guessType(f.path).None? ==> ExtOf(f.name) in MimeOptionalExts)
  }

  /** Validating a concatenation validates each part and concatenates the
      results: both lists follow walk order, directory by directory. */
  lemma {:induction false} ValidateAllAppend(a: seq<WalkedFile>, b: seq<WalkedFile>, check: WalkedFile -> Option<Failure>)
    ensures ValidateAll(a + b, check).0 == ValidateAll(a, check).0 + ValidateAll(b, check).0
    ensures ValidateAll(a + b, check).1 == ValidateAll(a, check).1 + ValidateAll(b, check).1
  {
    if b == [] {
      assert a + b == a;
    } else {
      assert (a + b)[..|a + b| - 1] == a + b[..|b| - 1];
      ValidateAllAppend(a, b[..|b| - 1], check);
    }
  }

  /** validate_folder's nested loops over the walk. */
  method ValidateFolder(walk: seq<WalkEntry>, getsize: string -> Option<int>, guessType: string -> Option<string>)
    returns (validPaths: seq<string>, issues: seq<ValidationIssue>)
    ensures (validPaths, issues) == ValidateAll(WalkFiles(walk), FolderCheck(getsize, guessType))
  {
    ghost var check := FolderCheck(getsize, guessType);
    validPaths, issues := [], [];
    var i := 0;
    while i < |walk|
      invariant 0 <= i <= |walk|
      invariant (validPaths, issues) == ValidateAll(WalkFiles(walk[..i]), check)
    {
      assert walk[..i + 1][..i] == walk[..i];
      validPaths, issues := ValidateDir(walk[i].root, walk[i].files, getsize, guessType, WalkFiles(walk[..i]), validPaths, issues);
      i := i + 1;
    }
    assert walk[..i] == walk;
  }

  /** The inner loop over one directory's files: each path or issue is
      appended to the lists so far. */
  method ValidateDir(root: string, names: seq<string>, getsize: string -> Option<int>, guessType: string -> Option<string>,
                     ghost seen: seq<WalkedFile>, validPaths: seq<string>, issues: seq<ValidationIssue>)
    returns (validPaths': seq<string>, issues': seq<ValidationIssue>)
    requires (validPaths, issues) == ValidateAll(seen, FolderCheck(getsize, guessType))
    ensures (validPaths', issues') == ValidateAll(seen + DirFiles(root, names), FolderCheck(getsize, guessType))
  {
    ghost var check := FolderCheck(getsize, guessType);
    validPaths', issues' := validPaths, issues;
    assert seen + DirFiles(root, names[..0]) == seen;
    var j := 0;
    while j < |names|
      invariant 0 <= j <= |names|
      invariant (validPaths', issues') == ValidateAll(seen + DirFiles(root, names[..j]), check)
    {
      var path := Join(root, names[j]);
      var failure := CheckFile(path, names[j], getsize, guessType);
      DirStep(seen, root, names, j, check);
      if failure.Some? {
        issues' := issues' + [ValidationIssue(path, failure.value)];
      } else {
        validPaths' := validPaths' + [path];
      }
      j := j + 1;
    }
    assert names[..j] == names;
  }

  /** The body of the inner loop: the rules on one file, in order. */
  method CheckFile(path: string, name: string, getsize: string -> Option<int>, guessType: string -> Option<string>)
    returns (failure: Option<Failure>)
    ensures failure == FolderCheck(getsize, guessType)(WalkedFile(path, name))
  {
    var ext := Lower(SplitExt(name));
    var size := getsize(path);
    if size.None? {
      return Some(Unreadable);
    }
    if ext !in SupportedExts {
      return Some(UnsupportedExtension(ext));
    }
    if size.value <= 0 {
      return Some(EmptyFile);
    }
    if size.value > MaxDocBytes {
      return Some(TooLarge(size.value));
    }
    if guessType(path).None? && ext !in MimeOptionalExts {
      return Some(UnknownMime);
    }
    failure := None;
  }
}

/**
 * The file system as the synchroniser sees it: files with their bytes, a set
 * of directories, and fault oracles standing in for the I/O exceptions the
 * source catches.
 */
module Storage {
  import opened Wrappers
  import opened Bytes
  import opened Paths

  datatype FileSystem = FileSystem(files: map<Path, seq<byte>>, dirs: set<Path>)

  /**
   * Which operations throw: creating one of `mkdirFails`, writing one of
   * `writeFails` (permissions, a locked file), reading one of `readFails`.
   */
  datatype Faults = Faults(mkdirFails: set<Path>, writeFails: set<Path>, readFails: set<Path>)

  /** The content of a file, or None when there is no such file. */
  function FileAt(fs: FileSystem, path: Path): Option<seq<byte>>
  {
    if path in fs.files then Some(fs.files[path]) else None
  }

  /** `File.Exists` / `_IsExistsFile` (its warning on a miss is not modelled). */
  predicate FileExists(fs: FileSystem, path: Path)
    ensures FileExists(fs, path) <==> FileAt(fs, path).Some?
  {
    path in fs.files
  }

  /** `Directory.Exists`. */
  predicate DirectoryExists(fs: FileSystem, dir: Path)
  {
    dir in fs.dirs
  }

  /** `_ReadAllBytes`: the file's exact content, or null when it is missing or the read throws. */
  function ReadAllBytes(fs: FileSystem, faults: Faults, path: Path): (r: Option<seq<byte>>)
    ensures r.Some? ==> r == FileAt(fs, path)
    ensures r.None? <==> !FileExists(fs, path) || path in faults.readFails
  {
    if path in fs.files && path !in faults.readFails then Some(fs.files[path]) else None
  }

  /**
   * `_CreateDirectory`: creates the directory when it is missing; a creation
   * that throws is only logged, and the result is true in every case.
   */
  function CreateDirectory(fs: FileSystem, faults: Faults, dir: Path): (r: (bool, FileSystem))
    ensures r.0
    ensures r.1.files == fs.files
    ensures fs.dirs <= r.1.dirs && r.1.dirs <= fs.dirs + {dir}
    ensures DirectoryExists(r.1, dir) <==> DirectoryExists(fs, dir) || dir !in faults.mkdirFails
  {
    if DirectoryExists(fs, dir) then (true, fs)
    else if dir in faults.mkdirFails then (true, fs)
    else (true, fs.(dirs := fs.dirs + {dir}))
  }

  /** A file can be written when its directory exists and the write does not throw. */
  predicate CanWrite(fs: FileSystem, faults: Faults, path: Path)
  {
    DirectoryExists(fs, Parent(path)) && path !in faults.writeFails
  }

  /** `File.WriteAllBytes`: creates or replaces the file; false when it throws. */
  function WriteAllBytes(fs: FileSystem, faults: Faults, path: Path, bytes: seq<byte>): (r: (bool, FileSystem))
    ensures r.0 <==> CanWrite(fs, faults, path)
    ensures r.1.dirs == fs.dirs
    ensures r.0 ==> FileAt(r.1, path) == Some(bytes)
    ensures forall q :: q != path || !r.0 ==> FileAt(r.1, q) == FileAt(fs, q)
  {
    if CanWrite(fs, faults, path) then (true, fs.(files := fs.files[path := bytes])) else (false, fs)
  }

  /**
   * `_CopyDllInternal`: `File.Copy` with overwrite, true on success and
   * false when it throws (a missing or unreadable source, a missing
   * directory, a failed write).
   */
  function CopyFile(fs: FileSystem, faults: Faults, source: Path, dest: Path): (r: (bool, FileSystem))
    ensures r.0 <==> ReadAllBytes(fs, faults, source).Some? && CanWrite(fs, faults, dest)
    ensures r.1.dirs == fs.dirs
    ensures r.0 ==> FileAt(r.1, dest) == FileAt(fs, source)
    ensures forall q :: q != dest || !r.0 ==> FileAt(r.1, q) == FileAt(fs, q)
  {
    match ReadAllBytes(fs, faults, source)
    case None => (false, fs)
    case Some(bytes) => WriteAllBytes(fs, faults, dest, bytes)
  }
}

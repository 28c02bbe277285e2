/**
 * The synchronisation pass: `_PrepareDlls` copies every host DLL from the
 * SDK into the project and tags each copy, `Process` decides whether to run
 * it, and the static constructor runs `Process` at most once per session.
 */
module Sync {
  import opened Wrappers
  import opened Bytes
  import opened Paths
  import opened Platforms
  import opened Storage
  import opened PluginSettings
  import opened Checks

  /** Editor side effects the pass produces besides file writes. */
  datatype Event =
    | Copied(path: Path)     // a successful `File.Copy` onto this plugin path
    | Imported(path: Path)   // `AssetDatabase.ImportAsset`
    | Persisted(path: Path)  // `WriteImportSettingsIfDirty` followed by `Refresh`

  /**
   * The environment the pass cannot see into: the I/O faults, the files
   * Unity does not recognise as plugins, and the importer Unity creates for
   * a newly imported plugin.
   */
  datatype Env = Env(faults: Faults, unimportable: set<Path>, freshImporter: Settings)

  /** The file system, the importer of every imported asset, and the event trace. */
  datatype State = State(fs: FileSystem, importers: map<Path, Settings>, log: seq<Event>)

  /** `PluginImporter.GetAtPath`: the asset's importer, or null. */
  function ImporterAt(st: State, path: Path): Option<Settings>
  {
    if path in st.importers then Some(st.importers[path]) else None
  }

  /** The importer an asset has after a forced import: its old one, else a fresh one unless Unity does not recognise it. */
  function AfterImport(env: Env, path: Path, before: Option<Settings>): Option<Settings>
  {
    if before.Some? then before
    else if path in env.unimportable then None
    else Some(env.freshImporter)
  }

  /** `AssetDatabase.ImportAsset` with `ForceUpdate`: existing import settings survive the re-import. */
  function ImportAsset(env: Env, st: State, path: Path): (r: State)
    ensures r.fs == st.fs
    ensures r.log == st.log + [Imported(path)]
    ensures ImporterAt(r, path) == AfterImport(env, path, ImporterAt(st, path))
    ensures forall q :: q != path ==> ImporterAt(r, q) == ImporterAt(st, q)
  {
    match AfterImport(env, path, ImporterAt(st, path))
    case None => st.(log := st.log + [Imported(path)])
    case Some(s) => st.(importers := st.importers[path := s], log := st.log + [Imported(path)])
  }

  /** The importer a plugin ends up with after `SetPlugin` for `target`, starting from `before`. */
  function TaggedImporter(target: BuildTarget, path: Path, before: Option<Settings>): Option<Settings>
  {
    if before.None? then None
    else NewImporterSetter(target, path, before).SetPlugin().0.importer
  }

  /** `_SetPluginAttributes`: a missing importer is logged and skipped; otherwise `SetPlugin` runs on it. */
  function SetPluginAttributes(target: BuildTarget, path: Path, st: State): (r: State)
    ensures r.fs == st.fs
    ensures ImporterAt(r, path) == TaggedImporter(target, path, ImporterAt(st, path))
    ensures forall q :: q != path ==> ImporterAt(r, q) == ImporterAt(st, q)
    ensures r.log == st.log +
      if ImporterAt(st, path).Some? && NewImporterSetter(target, path, ImporterAt(st, path)).SetPlugin().1
      then [Persisted(path)] else []
  {
    var setter := NewImporterSetter(target, path, ImporterAt(st, path));
    if !setter.IsExists() then st
    else
      var (done, persisted) := setter.SetPlugin();
      st.(importers := st.importers[path := done.importer.value],
          log := st.log + if persisted then [Persisted(path)] else [])
  }

  /**
   * The copy of DLL `j` for entry `i` goes through now: readable source,
   * existing directory, writable destination. `SyncProperties.CopySucceeds`
   * is this test judged before the entry's `_CreateDirectory` has run.
   */
  predicate CopyOkNow(env: Env, cfg: Config, fs: FileSystem, i: int, j: int)
    requires 0 <= i < |cfg.table| && 0 <= j < |cfg.dllNames|
  {
    && ReadAllBytes(fs, env.faults, SourcePath(cfg, i, j)).Some?
    && DirectoryExists(fs, PluginDirectory(cfg.table[i].pluginPlatform))
    && PluginPath(cfg, i, j) !in env.faults.writeFails
  }

  /** One iteration of the inner loop of `_PrepareDlls`: copy, and on success import and tag. */
  function CopyDll(env: Env, cfg: Config, i: int, j: int, st: State): (r: State)
    requires 0 <= i < |cfg.table| && 0 <= j < |cfg.dllNames|
    ensures r.fs.dirs == st.fs.dirs
    ensures st.fs.files.Keys <= r.fs.files.Keys
    ensures st.log <= r.log
  {
    var sourceFileName := SourcePath(cfg, i, j);
    var pluginName := PluginPath(cfg, i, j);
    var copy := CopyFile(st.fs, env.faults, sourceFileName, pluginName);
    if copy.0 then
      var copied := st.(fs := copy.1, log := st.log + [Copied(pluginName)]);
      SetPluginAttributes(cfg.table[i].target, pluginName, ImportAsset(env, copied, pluginName))
    else
      st
  }

  /** The inner `foreach` of `_PrepareDlls` over the DLL names, from index `j` on. */
  function CopyDlls(env: Env, cfg: Config, i: int, j: nat, st: State): (r: State)
    requires 0 <= i < |cfg.table|
    ensures r.fs.dirs == st.fs.dirs
    ensures st.fs.files.Keys <= r.fs.files.Keys
    ensures st.log <= r.log
    decreases |cfg.dllNames| - j
  {
    if j >= |cfg.dllNames| then st
    else CopyDlls(env, cfg, i, j + 1, CopyDll(env, cfg, i, j, st))
  }

  /** The outer loop of `_PrepareDlls`, from entry `i` on: skip other hosts, create the directory, copy the DLLs. */
  function PrepareFrom(env: Env, cfg: Config, host: RuntimePlatform, i: nat, st: State): (r: State)
    ensures st.fs.dirs <= r.fs.dirs
    ensures forall d :: d in r.fs.dirs && d !in st.fs.dirs ==> d !in env.faults.mkdirFails && UnderPlugins(d)
    ensures st.fs.files.Keys <= r.fs.files.Keys
    ensures st.log <= r.log
    decreases |cfg.table| - i
  {
    if i >= |cfg.table| then st
    else if cfg.table[i].editor != host then PrepareFrom(env, cfg, host, i + 1, st)
    else
      var made := CreateDirectory(st.fs, env.faults, PluginDirectory(cfg.table[i].pluginPlatform));
      // The source's `continue` on a failed `_CreateDirectory` is dead code: it always returns true.
      if !made.0 then assert false; st
      else PrepareFrom(env, cfg, host, i + 1, CopyDlls(env, cfg, i, 0, st.(fs := made.1)))
  }

  /** `_PrepareDlls`: create the plugin root, then run the copy loops. */
  function PrepareDlls(env: Env, cfg: Config, host: RuntimePlatform, st: State): (r: State)
    ensures st.fs.dirs <= r.fs.dirs
    ensures forall d :: d in r.fs.dirs && d !in st.fs.dirs ==> d !in env.faults.mkdirFails && UnderPlugins(d)
    ensures st.fs.files.Keys <= r.fs.files.Keys
    ensures st.log <= r.log
  {
    var made := CreateDirectory(st.fs, env.faults, PluginsDirectory);
    // As in `PrepareFrom`, the source's early `return` here can never run.
    if !made.0 then assert false; st
    else PrepareFrom(env, cfg, host, 0, st.(fs := made.1))
  }

  /** `_IsExistsSenselLib`. */
  predicate SdkExists(fs: FileSystem)
    ensures SdkExists(fs) <==> SenselLibDirectory in fs.dirs
  {
    DirectoryExists(fs, SenselLibDirectory)
  }

  /**
   * `Process`: nothing happens when the SDK is absent, or when every plugin
   * is present and none is stale; otherwise the DLLs are prepared.
   */
  function Process(env: Env, cfg: Config, host: RuntimePlatform, st: State): (r: State)
    ensures !SdkExists(st.fs) ==> r == st
    ensures AllPresent(cfg, host, st.fs) && !AnyExpired(cfg, host, env.faults, st.fs) ==> r == st
    ensures SdkExists(st.fs) && (!AllPresent(cfg, host, st.fs) || AnyExpired(cfg, host, env.faults, st.fs)) ==>
      r == PrepareDlls(env, cfg, host, st)
  {
    if AllPresent(cfg, host, st.fs) then
      if SdkExists(st.fs) then
        if !AnyExpired(cfg, host, env.faults, st.fs) then st
        else PrepareDlls(env, cfg, host, st)
      else st
    else if !SdkExists(st.fs) then st
    else PrepareDlls(env, cfg, host, st)
  }

  /** The static constructor: skipped in play mode or when the lock file exists; otherwise write the lock (ignoring failure) and run `Process`. */
  function StaticInit(env: Env, cfg: Config, host: RuntimePlatform, isPlaying: bool, st: State): (r: State)
    ensures isPlaying || FileExists(st.fs, LockFileName) ==> r == st
    ensures !isPlaying && !FileExists(st.fs, LockFileName) ==>
      r == Process(env, cfg, host, st.(fs := WriteAllBytes(st.fs, env.faults, LockFileName, []).1))
    ensures !isPlaying && !FileExists(st.fs, LockFileName) && !CanWrite(st.fs, env.faults, LockFileName) ==>
      r == Process(env, cfg, host, st)
    ensures !isPlaying && CanWrite(st.fs, env.faults, LockFileName) ==> FileExists(r.fs, LockFileName)
  {
    if isPlaying then st
    else if FileExists(st.fs, LockFileName) then st
    else
      var lock := WriteAllBytes(st.fs, env.faults, LockFileName, []);
      Process(env, cfg, host, st.(fs := lock.1))
  }
}

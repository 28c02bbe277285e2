# Sensel native-plugin synchroniser, modelled in Dafny

The Sensel Unity package ships an editor script, `PrepareDll`, that runs when the editor
loads. It keeps the two native libraries `LibSensel.dll` and `LibSenselDecompress.dll`
under `Assets/Sensel/Plugins/<platform>/` in step with the Sensel SDK install directory
(`C:\Program Files\Sensel\SenselLib\<platform>\`). A four-column mapping table
pairs each SDK platform (`x86`, `x64`) with a plugin platform (`x86`, `x86_64`), a build
target (`StandaloneWindows`, `StandaloneWindows64`) and the editor platform the entry
applies to (`WindowsEditor`). The pass does four things:

1. it checks that every plugin is present and that none differs byte-for-byte from its
   SDK copy;
2. if the SDK exists and something is missing or stale, it copies every DLL of every
   entry for the running editor, overwriting the old copy;
3. it imports each copy that succeeded and sets its plugin-importer settings. A setting
   is written only when its value differs, and the settings are persisted once, only
   when something was written;
4. a lock file in `Temp/` makes the whole pass run at most once per editor session.

The model is functional. The file system is a value: a map from path to bytes plus a
set of directories. Unity's importers are a map from path to a settings record. Each
operation is a function from state to state, with a trace of editor events (copy,
import, persist). Every I/O call that can throw in the source is decided by an oracle
(`Faults`): which directories cannot be created, which files cannot be written and
which cannot be read. The Unity environment adds two more inputs (`Env`): which files
Unity does not recognise as plugins, and the importer it creates for a new plugin. The
running editor platform and `Application.isPlaying` are parameters. The presence check,
the staleness check and the byte comparison are loops, as in the source, each proved
equal to a pure predicate.

Modules, leaves first:

- `Wrappers`: `Option`, standing in for a C# `null`.
- `Bytes`: `_IsEqualBytes`.
- `Paths`: the path constants, Windows `Path.Combine`, `_GetSenselLibPath`,
  `_GetPluginDirectory`, `_GetPluginName`.
- `Platforms`: the mapping table (`Config`, the `Sensel` instance). `WellFormed` holds of
  `Sensel` and says the names are plain path components and the plugin platforms and DLL
  names are distinct.
- `Storage`: `File.Exists`, `_ReadAllBytes`, `_CreateDirectory`, `File.WriteAllBytes`,
  `_CopyDllInternal`.
- `Checks`: `_IsPreparedDlls`, `_IsExpiredDlls`.
- `PluginSettings`: the `_PluginImporterSetter` class, as a datatype with member
  functions.
- `Sync`: `_SetPluginAttributes`, `_PrepareDlls`, `Process`, and the static constructor.
- `SyncProperties`: what one pass does, and when a second pass is quiet.

Behaviour the model follows exactly, which a reader might not expect:

- A pair whose source or plugin file is missing, or whose read fails, is skipped by the
  staleness check. It is never counted as stale.
- When anything is missing or stale, every DLL of every host entry is re-copied, not only
  the stale one. A plugin that was already current keeps its bytes and importer
  (`RecopyOfCurrentPluginChangesNothing`).
- `_CreateDirectory` returns true even when creation throws. So the `continue` and
  `return` after it in `_PrepareDlls` can never run. A failed directory shows up only
  later: `File.Copy` into it fails, so none of that entry's plugins changes
  (`FailedDirectorySkipsEntry`).
- A failed lock-file write is ignored, and the pass still runs.

## Model

| member | source | states |
|---|---|---|
| Bytes.IsEqualBytes | Assets/Sensel/Editor/SenselPrepareDll.cs:358-376 | the result is true exactly when both arrays are non-null, have the same length and agree at every index, i.e. are equal sequences; null on either side gives false |
| Bytes.EqualBytesIsExactEquality | Assets/Sensel/Editor/SenselPrepareDll.cs:358-376 | the comparison is exact equality on present arrays: reflexive, symmetric, false when either side is null |
| Paths.Combine | Assets/Sensel/Editor/SenselPrepareDll.cs:131 | Windows `Path.Combine`: an empty second part gives the first, a rooted one replaces it, a plain name is appended with at most one separator, and then the parent of the result is the first part |
| Paths.SenselLibPath | Assets/Sensel/Editor/SenselPrepareDll.cs:129-132 | for plain platform and DLL names, the SDK path is the SDK directory, the platform and the DLL name joined by the Windows separator |
| Paths.PluginDirectory | Assets/Sensel/Editor/SenselPrepareDll.cs:134-137 | a plugin directory lies under the plugin root, one level down: for a separator-free platform its parent is the root |
| Paths.PluginName | Assets/Sensel/Editor/SenselPrepareDll.cs:134-142 | a plugin path is the plugin directory of its platform plus "/" plus the DLL name, and its parent directory is that plugin directory |
| Paths.PluginNameInjective | Assets/Sensel/Editor/SenselPrepareDll.cs:139-142 | two plugin paths with separator-free DLL names are equal only for the same platform and DLL |
| Paths.DistinctRoots | Assets/Sensel/Editor/SenselPrepareDll.cs:12-15 | SDK paths, plugin paths and the lock file never coincide, so the pass never overwrites a source file or the lock |
| Platforms.SenselWellFormed | Assets/Sensel/Editor/SenselPrepareDll.cs:17-40 | the Sensel table uses plain, distinct plugin platforms and DLL names |
| Platforms.PluginPathInjective | Assets/Sensel/Editor/SenselPrepareDll.cs:94-111 | in a well-formed table, distinct (entry, DLL) pairs have distinct plugin paths |
| Platforms.TargetCodeInjective | Assets/Sensel/Editor/SenselPrepareDll.cs:17-20 | each `BuildTarget` enum value names exactly one target, so no other target shares the codes of `StandaloneWindows` and `StandaloneWindows64` |
| Storage.FileExists | Assets/Sensel/Editor/SenselPrepareDll.cs:338-346 | a file exists exactly when it has content to read |
| Storage.ReadAllBytes | Assets/Sensel/Editor/SenselPrepareDll.cs:348-356 | a read yields the file's exact bytes, and null exactly when the file is missing or the read throws |
| Storage.CreateDirectory | Assets/Sensel/Editor/SenselPrepareDll.cs:114-127 | always returns true, also when creation throws; the directory exists afterwards exactly when it existed or creation did not throw; files are untouched |
| Storage.WriteAllBytes | Assets/Sensel/Editor/SenselPrepareDll.cs:52-55 | the write succeeds exactly when the directory exists and the write does not throw; only the written path changes |
| Storage.CopyFile | Assets/Sensel/Editor/SenselPrepareDll.cs:144-153 | a copy succeeds exactly when the source is readable and the destination writable; on success the destination holds the source bytes, and nothing else changes |
| Checks.IsPreparedDlls | Assets/Sensel/Editor/SenselPrepareDll.cs:285-303 | true exactly when every DLL of every entry for the running editor exists at its plugin path |
| Checks.IsExpiredDlls | Assets/Sensel/Editor/SenselPrepareDll.cs:305-336 | true exactly when some host pair has both files present and readable with different bytes; a missing file or failed read never counts |
| Checks.OtherHostEntriesIgnored | Assets/Sensel/Editor/SenselPrepareDll.cs:289-292 | changing entries for other editor platforms never changes the presence or staleness verdict |
| Checks.NoEntriesForHost | Assets/Sensel/Editor/SenselPrepareDll.cs:309-312 | with no entry for the running editor, everything counts as present and nothing as expired |
| PluginSettings.NewImporterSetter | Assets/Sensel/Editor/SenselPrepareDll.cs:173-178 | a new setter keeps its target and plugin path, holds whatever `GetAtPath` returned, starts clean, and reports `isExists` exactly when an importer was found |
| PluginSettings.ImporterSetter.IsExists | Assets/Sensel/Editor/SenselPrepareDll.cs:180-184 | without an importer no guarded setter has a write to make |
| PluginSettings.Apply | Assets/Sensel/Editor/SenselPrepareDll.cs:220-273 | a setter call makes its setting hold and leaves every other setting's value unchanged |
| PluginSettings.ImporterSetter.SetIfDifferent | Assets/Sensel/Editor/SenselPrepareDll.cs:220-273 | a guarded setter writes only when the importer exists, the target is addressable and the current value differs, and only then marks the setter dirty; otherwise nothing changes |
| PluginSettings.ImporterSetter.WriteImportSettingsIfDirty | Assets/Sensel/Editor/SenselPrepareDll.cs:275-282 | persists exactly when the setter is dirty, and always leaves it clean |
| PluginSettings.ImporterSetter.SetPlugin | Assets/Sensel/Editor/SenselPrepareDll.cs:186-198 | on an existing importer every planned setting of the target's `switch` case holds afterwards and nothing outside the plan moves; it persists exactly when the setter was dirty or some planned setting differed, so for a fresh setter exactly when the settings changed; without an importer nothing changes; the dirty flag is always cleared |
| PluginSettings.SetAllEffect | Assets/Sensel/Editor/SenselPrepareDll.cs:200-273 | after a slot-disjoint sequence of setter calls every desired value holds, other settings are unchanged, and the setter is dirty and the importer changed exactly when some value differed |
| PluginSettings.SetPluginIdempotent | Assets/Sensel/Editor/SenselPrepareDll.cs:186-198 | a second `SetPlugin` on the settings left by the first writes nothing and persists nothing |
| PluginSettings.SetPluginWithoutImporter | Assets/Sensel/Editor/SenselPrepareDll.cs:220-273 | without an importer no setting changes and nothing is persisted |
| PluginSettings.WindowsTargetSettings | Assets/Sensel/Editor/SenselPrepareDll.cs:200-218 | after `SetPlugin` for a Windows target: any-platform off, Editor on with OS Windows and the target's CPU, the target on with the same CPU, `x86_64` for `StandaloneWindows64` and `x86` for `StandaloneWindows`; every other setting keeps its value |
| PluginSettings.OtherTargetUntouched | Assets/Sensel/Editor/SenselPrepareDll.cs:188-195 | a build target outside the switch leaves the importer as it was |
| Sync.SdkExists | Assets/Sensel/Editor/SenselPrepareDll.cs:378-381 | the SDK check is `Directory.Exists` on the SDK root; `SyncProperties.ProcessKeepsSdkVerdict` shows the pass never changes its answer |
| Sync.ImportAsset | Assets/Sensel/Editor/SenselPrepareDll.cs:107 | importing keeps an existing importer, creates one for a recognised new plugin, touches no other importer and logs one import event |
| Sync.CopyDll | Assets/Sensel/Editor/SenselPrepareDll.cs:103-110 | one DLL iteration keeps the directory set, never removes a file and only appends to the trace |
| Sync.CopyDlls | Assets/Sensel/Editor/SenselPrepareDll.cs:103 | the DLL loop keeps the directory set, never removes a file and only appends to the trace |
| Sync.PrepareFrom | Assets/Sensel/Editor/SenselPrepareDll.cs:94-111 | the entry loop adds only directories under the plugin root whose creation did not fail, never removes a file and only appends to the trace |
| Sync.SetPluginAttributes | Assets/Sensel/Editor/SenselPrepareDll.cs:155-164 | a plugin without an importer is skipped; otherwise its importer becomes the `SetPlugin` result; no other importer or file changes; it logs exactly one persist of that plugin when it has an importer and `SetPlugin` persisted, and nothing otherwise |
| Sync.Process | Assets/Sensel/Editor/SenselPrepareDll.cs:65-86 | no change at all when the SDK directory is absent, or when every plugin is present and none is stale; otherwise exactly `_PrepareDlls` |
| Sync.PrepareDlls | Assets/Sensel/Editor/SenselPrepareDll.cs:88-112 | the pass only adds directories under the plugin root whose creation did not fail, never removes a file, and only appends to the event trace |
| Sync.StaticInit | Assets/Sensel/Editor/SenselPrepareDll.cs:42-58 | nothing happens in play mode or when the lock file exists; otherwise the lock is written and `Process` runs on the result; a failed lock write still runs `Process` on the unchanged state; a successful one leaves the lock in place |
| SyncProperties.CopyDllEffect | Assets/Sensel/Editor/SenselPrepareDll.cs:103-110 | one copy step: on success the plugin holds the source bytes and is imported and tagged, and every logged event names it; otherwise nothing changes |
| SyncProperties.CopyDllLands | Assets/Sensel/Editor/SenselPrepareDll.cs:103-110 | a copy step that goes through leaves its plugin with the source bytes and the tagged importer |
| SyncProperties.CopyDllPersistCount | Assets/Sensel/Editor/SenselPrepareDll.cs:106-108 | one copy step logs exactly one persist of its plugin when the copy goes through and `SetPlugin` on the importer left by the forced import persists, and none otherwise |
| SyncProperties.CopyDllPassesOver | Assets/Sensel/Editor/SenselPrepareDll.cs:103-110 | copying one DLL leaves another DLL of the same entry alone: its readiness, plugin content, importer and persist count |
| SyncProperties.LaterCopiesMiss | Assets/Sensel/Editor/SenselPrepareDll.cs:103-110 | the DLLs copied after a DLL never touch its plugin: content and importer unchanged, no persist |
| SyncProperties.CopyDllsHit | Assets/Sensel/Editor/SenselPrepareDll.cs:103-110 | the DLL loop gives every DLL whose copy goes through its source bytes and tagged importer |
| SyncProperties.CopyDllsMiss | Assets/Sensel/Editor/SenselPrepareDll.cs:103-110 | the DLL loop leaves every other path's content and importer alone and logs nothing about it |
| SyncProperties.CopyDllsPersistCount | Assets/Sensel/Editor/SenselPrepareDll.cs:103-110 | the DLL loop persists each DLL whose copy goes through exactly once when `SetPlugin` on its imported importer persists, and never otherwise |
| SyncProperties.EntryKeepsReadiness | Assets/Sensel/Editor/SenselPrepareDll.cs:94-111 | processing one entry changes no source file and no later copy's outcome |
| SyncProperties.PrepareFromHit | Assets/Sensel/Editor/SenselPrepareDll.cs:94-111 | the entry loop gives every host DLL whose copy succeeds its source bytes and tagged importer |
| SyncProperties.EntryPassesOver | Assets/Sensel/Editor/SenselPrepareDll.cs:94-111 | processing one host entry leaves a plugin of another entry alone: its copy outcome, source, content, importer and persist count |
| SyncProperties.LaterEntriesMiss | Assets/Sensel/Editor/SenselPrepareDll.cs:94-111 | the entries after a host entry never touch that entry's plugins: content and importer unchanged, no persist |
| SyncProperties.PrepareFromPersistCount | Assets/Sensel/Editor/SenselPrepareDll.cs:94-111 | the entry loop persists every host DLL whose copy succeeds exactly once when `SetPlugin` on its imported importer persists, and never otherwise |
| SyncProperties.PrepareFromMiss | Assets/Sensel/Editor/SenselPrepareDll.cs:94-111 | the entry loop leaves every path that is not a successfully copied host plugin unchanged and unlogged |
| SyncProperties.PrepareDllsEffect | Assets/Sensel/Editor/SenselPrepareDll.cs:88-112 | after the pass each host DLL whose copy succeeded holds exactly the source bytes and has been imported and tagged, and is persisted exactly once when `SetPlugin` changed its settings and never otherwise; every other path keeps its content and importer and appears in no event |
| SyncProperties.SourceNeverCopiedOnto | Assets/Sensel/Editor/SenselPrepareDll.cs:129-142 | no SDK file and not the lock file is ever overwritten by the pass |
| SyncProperties.CopiedExactlyWhenItsCopySucceeds | Assets/Sensel/Editor/SenselPrepareDll.cs:94-111 | a plugin path is overwritten exactly when its own entry is for the host and its own copy succeeds |
| SyncProperties.CopiedPairIsCurrent | Assets/Sensel/Editor/SenselPrepareDll.cs:305-336 | after the pass, a pair whose copy succeeded is present and not stale |
| SyncProperties.PrepareDllsMakesCurrent | Assets/Sensel/Editor/SenselPrepareDll.cs:88-112 | when every copy succeeds, the pass leaves all plugins present and none stale |
| SyncProperties.ProcessIdempotent | Assets/Sensel/Editor/SenselPrepareDll.cs:65-86 | when every copy succeeds, running `Process` twice is the same as running it once |
| SyncProperties.ProcessKeepsSdkVerdict | Assets/Sensel/Editor/SenselPrepareDll.cs:378-381 | `Process` never creates or removes the SDK directory, so `_IsExistsSenselLib` answers the same afterwards |
| SyncProperties.PassKeepsReadiness | Assets/Sensel/Editor/SenselPrepareDll.cs:94-111 | after the pass every SDK file is unchanged and every copy would succeed or fail as it did before |
| SyncProperties.TaggedIdempotent | Assets/Sensel/Editor/SenselPrepareDll.cs:186-198 | importing and tagging a plugin a second time leaves the importer the first round produced |
| SyncProperties.TaggedNeverPersists | Assets/Sensel/Editor/SenselPrepareDll.cs:186-198 | once a plugin has been imported and tagged, a further import and `SetPlugin` on it persists nothing |
| SyncProperties.PrepareTwiceAt | Assets/Sensel/Editor/SenselPrepareDll.cs:88-112 | a second pass straight after the first leaves each path's content and importer as the first left them |
| SyncProperties.SecondPassPersistsNothingAt | Assets/Sensel/Editor/SenselPrepareDll.cs:88-112 | a second pass straight after the first logs no persist of any path |
| SyncProperties.SecondProcessKeepsContent | Assets/Sensel/Editor/SenselPrepareDll.cs:65-86 | whatever the faults, a second `Process` straight after the first leaves all files and importers as they were |
| SyncProperties.SecondProcessPersistsNothing | Assets/Sensel/Editor/SenselPrepareDll.cs:65-86 | whatever the faults, a second `Process` straight after the first logs no persist event |
| SyncProperties.ProcessSettles | Assets/Sensel/Editor/SenselPrepareDll.cs:65-86 | whatever the faults, a second `Process` straight after the first leaves all files and importers as they were, and the second run logs no persist event |
| SyncProperties.FailedCopyIsIsolated | Assets/Sensel/Editor/SenselPrepareDll.cs:103-110 | a failed copy leaves only that plugin unchanged and untagged; another DLL of the same entry is still copied and tagged |
| SyncProperties.FailedDirectorySkipsEntry | Assets/Sensel/Editor/SenselPrepareDll.cs:114-127 | when an entry's directory is missing and cannot be created, none of that entry's plugins changes, despite `_CreateDirectory` returning true |
| SyncProperties.OtherHostPluginsUntouched | Assets/Sensel/Editor/SenselPrepareDll.cs:95-97 | the pass never touches plugins of entries for another editor platform |
| SyncProperties.ProcessOnForeignHost | Assets/Sensel/Editor/SenselPrepareDll.cs:65-86 | on an editor platform no entry is for, `Process` changes nothing |
| SyncProperties.RecopyOfCurrentPluginChangesNothing | Assets/Sensel/Editor/SenselPrepareDll.cs:103-110 | re-copying a plugin that already has its source bytes and all target settings leaves its content and importer unchanged and logs no persist for it |
| SyncProperties.StaticInitRunsOnce | Assets/Sensel/Editor/SenselPrepareDll.cs:42-58 | once the lock file is written or already present, a second static-constructor run changes nothing |

## Left out

- `Assets/Sensel/Samples/HelloSensel/HelloSensel.cs` and `Assets/Sensel/Samples/SenselVisulalizer/SenselVisualizer.cs`: these demos are vendor-SDK P/Invoke calls, floating-point mesh work and rendering, with no behaviour to state.
- `Debug.Log`, `Debug.LogWarning` and `Debug.LogError` output is not modelled, including the warning `_IsExistsFile` logs on a miss.
- `AssetDatabase.Refresh` is folded into the `Persisted` event, because the source always calls it right after `WriteImportSettingsIfDirty`.
- Unity's asset database is reduced to a map from path to importer settings. `ImportAsset` keeps existing settings, or creates `Env.freshImporter` for a file Unity recognises. How Unity actually imports is not modelled.
- Importer settings keyed by the name "Editor" and by a build target are distinct slots. Whether Unity aliases a build target with a platform name internally is not modelled.
- `Directory.CreateDirectory` also creates missing parent directories; the model adds only the named directory. Only a plugin's own platform directory is consulted by the copy.
- I/O failures are a fixed oracle per path. A read, write or directory creation that would fail once fails every time within the same environment.
- `Path.Combine` is the Windows variant. Its exceptions for null arguments or invalid path characters are not modelled, since the source passes only fixed, valid strings.
- `Application.platform` and `Application.isPlaying` are parameters. The SDK directory is the single Windows constant that `_GetSenselLibDirectory` returns.
- A sync outcome value (current, SDK missing, synchronised, partial failure) is not modelled, because `Process` returns nothing.
- `RuntimePlatform` names the three editor platforms and folds every other Unity platform into `OtherRuntime`. The synchroniser only compares the host with the table's editor platforms, none of which is `OtherRuntime`, so those platforms all behave alike.
- Concurrency: two editors racing on the same project is out of scope, as in the source.
- Paths are compared as exact strings. Windows treats paths case-insensitively and treats `/` and `\` alike; the model does not. No behaviour depends on this, because the source only builds paths from fixed constants.
- Sync.CopyDll: its contract states only the monotonic facts; what one iteration does to its plugin is stated by `SyncProperties.CopyDllEffect`, `SyncProperties.CopyDllLands` and `SyncProperties.CopyDllPersistCount`.
- Sync.CopyDlls: its contract states only the monotonic facts; the DLL loop's effect is stated by `SyncProperties.CopyDllsHit`, `SyncProperties.CopyDllsMiss` and `SyncProperties.CopyDllsPersistCount`.
- Sync.PrepareFrom: its contract states only the monotonic facts; the entry loop's effect is stated by `SyncProperties.PrepareFromHit`, `SyncProperties.PrepareFromMiss` and `SyncProperties.PrepareFromPersistCount`.
- Sync.PrepareDlls: its contract states only the monotonic facts; the content of each plugin after the pass is stated by `SyncProperties.PrepareDllsEffect`.
- SyncProperties.ProcessSettles: states that files and importers settle and that no persist is logged, not the whole event trace or the directory set. A second pass that runs again logs fresh copy and import events; `SyncProperties.ProcessIdempotent` gives full equality, trace included, when every copy succeeds.

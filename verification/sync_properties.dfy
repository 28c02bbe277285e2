/**
 * What one synchronisation pass does to the project, proved from the
 * definitions in `Sync`: which plugin paths it overwrites and with what,
 * what it leaves alone, and when a second pass is quiet.
 */
module SyncProperties {
  import opened Wrappers
  import opened Bytes
  import opened Paths
  import opened Platforms
  import opened Storage
  import opened PluginSettings
  import opened Checks
  import opened Sync

  /** The platform directory of mapping `m` exists now or will be created by `_CreateDirectory`. */
  predicate DirReady(env: Env, fs: FileSystem, m: Mapping)
  {
    DirectoryExists(fs, PluginDirectory(m.pluginPlatform)) || PluginDirectory(m.pluginPlatform) !in env.faults.mkdirFails
  }

  /**
   * The copy of DLL `j` for entry `i` will succeed when the pass reaches it,
   * judged on the state before the pass: `CopyOkNow` of `Sync`, read after
   * the entry's `_CreateDirectory` has run (`DirReady` in place of an
   * existing directory).
   */
  predicate CopySucceeds(env: Env, cfg: Config, fs: FileSystem, i: int, j: int)
    requires 0 <= i < |cfg.table| && 0 <= j < |cfg.dllNames|
  {
    && ReadAllBytes(fs, env.faults, SourcePath(cfg, i, j)).Some?
    && DirReady(env, fs, cfg.table[i])
    && PluginPath(cfg, i, j) !in env.faults.writeFails
  }

  /** `q` is the plugin path of a host pair whose copy succeeds. */
  ghost predicate OverwrittenByPass(env: Env, cfg: Config, host: RuntimePlatform, fs: FileSystem, q: Path)
  {
    exists i, j :: HostPair(cfg, host, i, j) && CopySucceeds(env, cfg, fs, i, j) && q == PluginPath(cfg, i, j)
  }

  /** The importer a successfully copied plugin ends with: imported, then tagged for its target. */
  function Tagged(env: Env, target: BuildTarget, path: Path, before: Option<Settings>): Option<Settings>
  {
    TaggedImporter(target, path, AfterImport(env, path, before))
  }

  /** `SetPlugin` persists the settings of `path` after its forced import, starting from importer `before`. */
  predicate Persists(env: Env, target: BuildTarget, path: Path, before: Option<Settings>)
  {
    var imported := AfterImport(env, path, before);
    imported.Some? && NewImporterSetter(target, path, imported).SetPlugin().1
  }

  /** One copy step: on success the plugin gets the source bytes and is imported and tagged; nothing else changes. */
  lemma CopyDllEffect(env: Env, cfg: Config, i: int, j: int, st: State)
    requires WellFormed(cfg)
    requires 0 <= i < |cfg.table| && 0 <= j < |cfg.dllNames|
    ensures var r := CopyDll(env, cfg, i, j, st);
      && (CopyOkNow(env, cfg, st.fs, i, j) ==>
            && FileAt(r.fs, PluginPath(cfg, i, j)) == FileAt(st.fs, SourcePath(cfg, i, j))
            && ImporterAt(r, PluginPath(cfg, i, j)) == Tagged(env, cfg.table[i].target, PluginPath(cfg, i, j), ImporterAt(st, PluginPath(cfg, i, j))))
      && (forall q :: q != PluginPath(cfg, i, j) || !CopyOkNow(env, cfg, st.fs, i, j) ==>
            FileAt(r.fs, q) == FileAt(st.fs, q) && ImporterAt(r, q) == ImporterAt(st, q))
      && (forall k :: |st.log| <= k < |r.log| ==> r.log[k].path == PluginPath(cfg, i, j) && CopyOkNow(env, cfg, st.fs, i, j))
  {
    assert Parent(PluginPath(cfg, i, j)) == PluginDirectory(cfg.table[i].pluginPlatform);
  }

  /** The number of `Persisted(q)` events `log` holds from index `from` on. */
  function PersistCount(log: seq<Event>, from: nat, q: Path): nat
    requires from <= |log|
  {
    multiset(log[from..])[Persisted(q)]
  }

  /** A trace extended in two stages logs the persists of both stages. */
  lemma PersistCountSplice(a: seq<Event>, b: seq<Event>, from: nat, q: Path)
    requires from <= |a| && a <= b
    ensures PersistCount(b, from, q) == PersistCount(a, from, q) + PersistCount(b, |a|, q)
  {
    assert b[from..] == a[from..] + b[|a|..];
  }

  /** A trace segment none of whose events names `q` logs no persist of `q`. */
  lemma NoMentionNoPersist(log: seq<Event>, from: nat, q: Path)
    requires from <= |log|
    requires forall k :: from <= k < |log| ==> log[k].path != q
    ensures PersistCount(log, from, q) == 0
  {
  }

  /** A trace segment that logs no persist of `q` holds no `Persisted(q)` event. */
  lemma NoPersistNoEvent(log: seq<Event>, from: nat, q: Path)
    requires from <= |log| && PersistCount(log, from, q) == 0
    ensures forall k :: from <= k < |log| ==> log[k] != Persisted(q)
  {
  }

  /**
   * One copy step logs exactly one persist of its plugin when the copy goes
   * through and `SetPlugin` on the freshly imported importer persists, and
   * none otherwise.
   */
  lemma CopyDllPersistCount(env: Env, cfg: Config, i: int, j: int, st: State)
    requires WellFormed(cfg)
    requires 0 <= i < |cfg.table| && 0 <= j < |cfg.dllNames|
    ensures var r := CopyDll(env, cfg, i, j, st);
      && |st.log| <= |r.log|
      && PersistCount(r.log, |st.log|, PluginPath(cfg, i, j)) ==
           if CopyOkNow(env, cfg, st.fs, i, j) && Persists(env, cfg.table[i].target, PluginPath(cfg, i, j), ImporterAt(st, PluginPath(cfg, i, j)))
           then 1 else 0
  {
    var p := PluginPath(cfg, i, j);
    assert Parent(p) == PluginDirectory(cfg.table[i].pluginPlatform);
    var r := CopyDll(env, cfg, i, j, st);
    if CopyOkNow(env, cfg, st.fs, i, j) {
      var copy := CopyFile(st.fs, env.faults, SourcePath(cfg, i, j), p);
      var copied := st.(fs := copy.1, log := st.log + [Copied(p)]);
      var imported := ImportAsset(env, copied, p);
      assert r == SetPluginAttributes(cfg.table[i].target, p, imported);
      var tail := if Persists(env, cfg.table[i].target, p, ImporterAt(st, p)) then [Persisted(p)] else [];
      assert r.log[|st.log|..] == [Copied(p), Imported(p)] + tail;
    } else {
      assert r == st;
    }
  }

  /** Copy steps never change what a readiness check sees, as long as the source file's content is unchanged. */
  lemma SameSourceSameReadiness(env: Env, cfg: Config, fs: FileSystem, fs': FileSystem, i: int, j: int)
    requires 0 <= i < |cfg.table| && 0 <= j < |cfg.dllNames|
    requires FileAt(fs', SourcePath(cfg, i, j)) == FileAt(fs, SourcePath(cfg, i, j))
    requires fs'.dirs == fs.dirs
    ensures CopyOkNow(env, cfg, fs', i, j) <==> CopyOkNow(env, cfg, fs, i, j)
    ensures CopySucceeds(env, cfg, fs', i, j) <==> CopySucceeds(env, cfg, fs, i, j)
  {
  }

  /** The inner loop leaves alone every path it does not successfully copy onto. */
  lemma {:induction false} CopyDllsMiss(env: Env, cfg: Config, i: int, j: nat, st: State, q: Path)
    requires WellFormed(cfg)
    requires 0 <= i < |cfg.table|
    requires forall j' :: j <= j' < |cfg.dllNames| && CopyOkNow(env, cfg, st.fs, i, j') ==> q != PluginPath(cfg, i, j')
    ensures FileAt(CopyDlls(env, cfg, i, j, st).fs, q) == FileAt(st.fs, q)
    ensures ImporterAt(CopyDlls(env, cfg, i, j, st), q) == ImporterAt(st, q)
    ensures forall k :: |st.log| <= k < |CopyDlls(env, cfg, i, j, st).log| ==> CopyDlls(env, cfg, i, j, st).log[k].path != q
    decreases |cfg.dllNames| - j
  {
    if j < |cfg.dllNames| {
      var st1 := CopyDll(env, cfg, i, j, st);
      CopyDllEffect(env, cfg, i, j, st);
      forall j' | j + 1 <= j' < |cfg.dllNames| && CopyOkNow(env, cfg, st1.fs, i, j')
        ensures q != PluginPath(cfg, i, j')
      {
        SourceIsNotPlugin(cfg, i, j', i, j);
        SameSourceSameReadiness(env, cfg, st.fs, st1.fs, i, j');
      }
      CopyDllsMiss(env, cfg, i, j + 1, st1, q);
    }
  }

  /** A copy step that goes through leaves its plugin with the source bytes and the tagged importer. */
  lemma CopyDllLands(env: Env, cfg: Config, i: int, j: int, st: State)
    requires WellFormed(cfg)
    requires 0 <= i < |cfg.table| && 0 <= j < |cfg.dllNames|
    requires CopyOkNow(env, cfg, st.fs, i, j)
    ensures var st1 := CopyDll(env, cfg, i, j, st);
      && FileAt(st1.fs, PluginPath(cfg, i, j)) == FileAt(st.fs, SourcePath(cfg, i, j))
      && ImporterAt(st1, PluginPath(cfg, i, j)) == Tagged(env, cfg.table[i].target, PluginPath(cfg, i, j), ImporterAt(st, PluginPath(cfg, i, j)))
  {
    CopyDllEffect(env, cfg, i, j, st);
  }

  /** The copy of DLL `j` leaves DLL `j'`'s readiness, plugin file, importer and persist count alone. */
  lemma CopyDllPassesOver(env: Env, cfg: Config, i: int, j: int, st: State, j': int)
    requires WellFormed(cfg)
    requires 0 <= i < |cfg.table| && 0 <= j < |cfg.dllNames| && 0 <= j' < |cfg.dllNames| && j' != j
    ensures var st1 := CopyDll(env, cfg, i, j, st);
      && (CopyOkNow(env, cfg, st1.fs, i, j') <==> CopyOkNow(env, cfg, st.fs, i, j'))
      && FileAt(st1.fs, PluginPath(cfg, i, j')) == FileAt(st.fs, PluginPath(cfg, i, j'))
      && FileAt(st1.fs, SourcePath(cfg, i, j')) == FileAt(st.fs, SourcePath(cfg, i, j'))
      && ImporterAt(st1, PluginPath(cfg, i, j')) == ImporterAt(st, PluginPath(cfg, i, j'))
      && PersistCount(st1.log, |st.log|, PluginPath(cfg, i, j')) == 0
  {
    var st1 := CopyDll(env, cfg, i, j, st);
    CopyDllEffect(env, cfg, i, j, st);
    SourceIsNotPlugin(cfg, i, j', i, j);
    SameSourceSameReadiness(env, cfg, st.fs, st1.fs, i, j');
    if PluginPath(cfg, i, j') == PluginPath(cfg, i, j) {
      PluginPathInjective(cfg, i, j', i, j);
    }
    NoMentionNoPersist(st1.log, |st.log|, PluginPath(cfg, i, j'));
  }

  /** The DLLs after `j` never touch DLL `j`'s plugin, whatever its copy left behind. */
  lemma LaterCopiesMiss(env: Env, cfg: Config, i: int, j: int, st: State)
    requires WellFormed(cfg)
    requires 0 <= i < |cfg.table| && 0 <= j < |cfg.dllNames|
    ensures var st1 := CopyDll(env, cfg, i, j, st);
      var r := CopyDlls(env, cfg, i, j + 1, st1);
      && FileAt(r.fs, PluginPath(cfg, i, j)) == FileAt(st1.fs, PluginPath(cfg, i, j))
      && ImporterAt(r, PluginPath(cfg, i, j)) == ImporterAt(st1, PluginPath(cfg, i, j))
      && PersistCount(r.log, |st1.log|, PluginPath(cfg, i, j)) == 0
  {
    var st1 := CopyDll(env, cfg, i, j, st);
    var dst := PluginPath(cfg, i, j);
    forall j'' | j + 1 <= j'' < |cfg.dllNames| && CopyOkNow(env, cfg, st1.fs, i, j'')
      ensures dst != PluginPath(cfg, i, j'')
    {
      if dst == PluginPath(cfg, i, j'') {
        PluginPathInjective(cfg, i, j, i, j'');
      }
    }
    CopyDllsMiss(env, cfg, i, j + 1, st1, dst);
    NoMentionNoPersist(CopyDlls(env, cfg, i, j + 1, st1).log, |st1.log|, dst);
  }

  /** The inner loop gives each successfully copied DLL its source bytes and its tagged importer. */
  lemma {:induction false} CopyDllsHit(env: Env, cfg: Config, i: int, j: nat, st: State, j': int)
    requires WellFormed(cfg)
    requires 0 <= i < |cfg.table| && j <= j' < |cfg.dllNames|
    requires CopyOkNow(env, cfg, st.fs, i, j')
    ensures FileAt(CopyDlls(env, cfg, i, j, st).fs, PluginPath(cfg, i, j')) == FileAt(st.fs, SourcePath(cfg, i, j'))
    ensures ImporterAt(CopyDlls(env, cfg, i, j, st), PluginPath(cfg, i, j')) ==
      Tagged(env, cfg.table[i].target, PluginPath(cfg, i, j'), ImporterAt(st, PluginPath(cfg, i, j')))
    decreases |cfg.dllNames| - j
  {
    var st1 := CopyDll(env, cfg, i, j, st);
    assert CopyDlls(env, cfg, i, j, st) == CopyDlls(env, cfg, i, j + 1, st1);
    if j' == j {
      CopyDllLands(env, cfg, i, j, st);
      LaterCopiesMiss(env, cfg, i, j, st);
    } else {
      CopyDllPassesOver(env, cfg, i, j, st, j');
      CopyDllsHit(env, cfg, i, j + 1, st1, j');
    }
  }

  /** The inner loop logs exactly one persist of a DLL's plugin when `SetPlugin` on its imported importer persists, and none otherwise. */
  lemma {:induction false} CopyDllsPersistCount(env: Env, cfg: Config, i: int, j: nat, st: State, j': int)
    requires WellFormed(cfg)
    requires 0 <= i < |cfg.table| && j <= j' < |cfg.dllNames|
    requires CopyOkNow(env, cfg, st.fs, i, j')
    ensures var r := CopyDlls(env, cfg, i, j, st);
      PersistCount(r.log, |st.log|, PluginPath(cfg, i, j')) ==
        if Persists(env, cfg.table[i].target, PluginPath(cfg, i, j'), ImporterAt(st, PluginPath(cfg, i, j'))) then 1 else 0
    decreases |cfg.dllNames| - j
  {
    var st1 := CopyDll(env, cfg, i, j, st);
    var dst := PluginPath(cfg, i, j');
    var r := CopyDlls(env, cfg, i, j, st);
    assert r == CopyDlls(env, cfg, i, j + 1, st1);
    if j' == j {
      CopyDllPersistCount(env, cfg, i, j, st);
      LaterCopiesMiss(env, cfg, i, j, st);
    } else {
      CopyDllPassesOver(env, cfg, i, j, st, j');
      CopyDllsPersistCount(env, cfg, i, j + 1, st1, j');
    }
    PersistCountSplice(st1.log, r.log, |st.log|, dst);
  }

  /** Processing one host entry (directory, then its DLLs) keeps every later copy's outcome as it was. */
  lemma EntryKeepsReadiness(env: Env, cfg: Config, host: RuntimePlatform, i: int, st: State, i': int, j': int)
    requires WellFormed(cfg)
    requires 0 <= i < |cfg.table| && cfg.table[i].editor == host
    requires 0 <= i' < |cfg.table| && 0 <= j' < |cfg.dllNames|
    ensures var made := CreateDirectory(st.fs, env.faults, PluginDirectory(cfg.table[i].pluginPlatform));
      var st2 := CopyDlls(env, cfg, i, 0, st.(fs := made.1));
      && FileAt(st2.fs, SourcePath(cfg, i', j')) == FileAt(st.fs, SourcePath(cfg, i', j'))
      && (CopySucceeds(env, cfg, st2.fs, i', j') <==> CopySucceeds(env, cfg, st.fs, i', j'))
  {
    var made := CreateDirectory(st.fs, env.faults, PluginDirectory(cfg.table[i].pluginPlatform));
    var st1 := st.(fs := made.1);
    forall j'' | 0 <= j'' < |cfg.dllNames| && CopyOkNow(env, cfg, st1.fs, i, j'')
      ensures SourcePath(cfg, i', j') != PluginPath(cfg, i, j'')
    {
      SourceIsNotPlugin(cfg, i', j', i, j'');
    }
    CopyDllsMiss(env, cfg, i, 0, st1, SourcePath(cfg, i', j'));
  }

  /** From entry `i` on, the pass leaves alone every path that is not a successfully copied host plugin. */
  lemma {:induction false} PrepareFromMiss(env: Env, cfg: Config, host: RuntimePlatform, i: nat, st: State, q: Path)
    requires WellFormed(cfg)
    requires forall i', j' :: i <= i' && HostPair(cfg, host, i', j') && CopySucceeds(env, cfg, st.fs, i', j') ==> q != PluginPath(cfg, i', j')
    ensures FileAt(PrepareFrom(env, cfg, host, i, st).fs, q) == FileAt(st.fs, q)
    ensures ImporterAt(PrepareFrom(env, cfg, host, i, st), q) == ImporterAt(st, q)
    ensures forall k :: |st.log| <= k < |PrepareFrom(env, cfg, host, i, st).log| ==> PrepareFrom(env, cfg, host, i, st).log[k].path != q
    decreases |cfg.table| - i
  {
    if i < |cfg.table| {
      if cfg.table[i].editor != host {
        PrepareFromMiss(env, cfg, host, i + 1, st, q);
      } else {
        var made := CreateDirectory(st.fs, env.faults, PluginDirectory(cfg.table[i].pluginPlatform));
        var st1 := st.(fs := made.1);
        var st2 := CopyDlls(env, cfg, i, 0, st1);
        forall j' | 0 <= j' < |cfg.dllNames| && CopyOkNow(env, cfg, st1.fs, i, j')
          ensures q != PluginPath(cfg, i, j')
        {
          assert CopySucceeds(env, cfg, st.fs, i, j');
        }
        CopyDllsMiss(env, cfg, i, 0, st1, q);
        forall i', j' | i + 1 <= i' && HostPair(cfg, host, i', j') && CopySucceeds(env, cfg, st2.fs, i', j')
          ensures q != PluginPath(cfg, i', j')
        {
          EntryKeepsReadiness(env, cfg, host, i, st, i', j');
        }
        PrepareFromMiss(env, cfg, host, i + 1, st2, q);
      }
    }
  }

  /** Processing host entry `i` leaves a plugin of another entry, its readiness, importer and persist count alone. */
  lemma EntryPassesOver(env: Env, cfg: Config, host: RuntimePlatform, i: int, st: State, i': int, j': int)
    requires WellFormed(cfg)
    requires 0 <= i < |cfg.table| && cfg.table[i].editor == host
    requires 0 <= i' < |cfg.table| && 0 <= j' < |cfg.dllNames| && i' != i
    ensures var made := CreateDirectory(st.fs, env.faults, PluginDirectory(cfg.table[i].pluginPlatform));
      var st2 := CopyDlls(env, cfg, i, 0, st.(fs := made.1));
      && (CopySucceeds(env, cfg, st2.fs, i', j') <==> CopySucceeds(env, cfg, st.fs, i', j'))
      && FileAt(st2.fs, SourcePath(cfg, i', j')) == FileAt(st.fs, SourcePath(cfg, i', j'))
      && FileAt(st2.fs, PluginPath(cfg, i', j')) == FileAt(st.fs, PluginPath(cfg, i', j'))
      && ImporterAt(st2, PluginPath(cfg, i', j')) == ImporterAt(st, PluginPath(cfg, i', j'))
      && PersistCount(st2.log, |st.log|, PluginPath(cfg, i', j')) == 0
  {
    var made := CreateDirectory(st.fs, env.faults, PluginDirectory(cfg.table[i].pluginPlatform));
    var st1 := st.(fs := made.1);
    var dst := PluginPath(cfg, i', j');
    EntryKeepsReadiness(env, cfg, host, i, st, i', j');
    forall j'' | 0 <= j'' < |cfg.dllNames| && CopyOkNow(env, cfg, st1.fs, i, j'')
      ensures dst != PluginPath(cfg, i, j'')
    {
      if dst == PluginPath(cfg, i, j'') {
        PluginPathInjective(cfg, i', j', i, j'');
      }
    }
    CopyDllsMiss(env, cfg, i, 0, st1, dst);
    NoMentionNoPersist(CopyDlls(env, cfg, i, 0, st1).log, |st1.log|, dst);
  }

  /** The entries after host entry `i` never touch a plugin of entry `i`, whatever its copy left behind. */
  lemma LaterEntriesMiss(env: Env, cfg: Config, host: RuntimePlatform, i: int, st: State, j': int)
    requires WellFormed(cfg)
    requires 0 <= i < |cfg.table| && cfg.table[i].editor == host && 0 <= j' < |cfg.dllNames|
    ensures var made := CreateDirectory(st.fs, env.faults, PluginDirectory(cfg.table[i].pluginPlatform));
      var st2 := CopyDlls(env, cfg, i, 0, st.(fs := made.1));
      var r := PrepareFrom(env, cfg, host, i + 1, st2);
      && FileAt(r.fs, PluginPath(cfg, i, j')) == FileAt(st2.fs, PluginPath(cfg, i, j'))
      && ImporterAt(r, PluginPath(cfg, i, j')) == ImporterAt(st2, PluginPath(cfg, i, j'))
      && PersistCount(r.log, |st2.log|, PluginPath(cfg, i, j')) == 0
  {
    var made := CreateDirectory(st.fs, env.faults, PluginDirectory(cfg.table[i].pluginPlatform));
    var st2 := CopyDlls(env, cfg, i, 0, st.(fs := made.1));
    var dst := PluginPath(cfg, i, j');
    forall i'', j'' | i + 1 <= i'' && HostPair(cfg, host, i'', j'') && CopySucceeds(env, cfg, st2.fs, i'', j'')
      ensures dst != PluginPath(cfg, i'', j'')
    {
      if dst == PluginPath(cfg, i'', j'') {
        PluginPathInjective(cfg, i, j', i'', j'');
      }
    }
    PrepareFromMiss(env, cfg, host, i + 1, st2, dst);
    NoMentionNoPersist(PrepareFrom(env, cfg, host, i + 1, st2).log, |st2.log|, dst);
  }

  /** From entry `i` on, every successfully copied host plugin ends with its source bytes and its tagged importer. */
  lemma {:induction false} PrepareFromHit(env: Env, cfg: Config, host: RuntimePlatform, i: nat, st: State, i': int, j': int)
    requires WellFormed(cfg)
    requires i <= i' && HostPair(cfg, host, i', j')
    requires CopySucceeds(env, cfg, st.fs, i', j')
    ensures FileAt(PrepareFrom(env, cfg, host, i, st).fs, PluginPath(cfg, i', j')) == FileAt(st.fs, SourcePath(cfg, i', j'))
    ensures ImporterAt(PrepareFrom(env, cfg, host, i, st), PluginPath(cfg, i', j')) ==
      Tagged(env, cfg.table[i'].target, PluginPath(cfg, i', j'), ImporterAt(st, PluginPath(cfg, i', j')))
    decreases |cfg.table| - i
  {
    var dst := PluginPath(cfg, i', j');
    if cfg.table[i].editor != host {
      PrepareFromHit(env, cfg, host, i + 1, st, i', j');
    } else {
      var made := CreateDirectory(st.fs, env.faults, PluginDirectory(cfg.table[i].pluginPlatform));
      var st1 := st.(fs := made.1);
      var st2 := CopyDlls(env, cfg, i, 0, st1);
      assert PrepareFrom(env, cfg, host, i, st) == PrepareFrom(env, cfg, host, i + 1, st2);
      if i' == i {
        CopyDllsHit(env, cfg, i, 0, st1, j');
        LaterEntriesMiss(env, cfg, host, i, st, j');
      } else {
        EntryPassesOver(env, cfg, host, i, st, i', j');
        PrepareFromHit(env, cfg, host, i + 1, st2, i', j');
      }
    }
  }

  /** From entry `i` on, a successfully copied host plugin is persisted exactly once when its settings change, and never otherwise. */
  lemma {:induction false} PrepareFromPersistCount(env: Env, cfg: Config, host: RuntimePlatform, i: nat, st: State, i': int, j': int)
    requires WellFormed(cfg)
    requires i <= i' && HostPair(cfg, host, i', j')
    requires CopySucceeds(env, cfg, st.fs, i', j')
    ensures var r := PrepareFrom(env, cfg, host, i, st);
      PersistCount(r.log, |st.log|, PluginPath(cfg, i', j')) ==
        if Persists(env, cfg.table[i'].target, PluginPath(cfg, i', j'), ImporterAt(st, PluginPath(cfg, i', j'))) then 1 else 0
    decreases |cfg.table| - i
  {
    var dst := PluginPath(cfg, i', j');
    var r := PrepareFrom(env, cfg, host, i, st);
    if cfg.table[i].editor != host {
      PrepareFromPersistCount(env, cfg, host, i + 1, st, i', j');
    } else {
      var made := CreateDirectory(st.fs, env.faults, PluginDirectory(cfg.table[i].pluginPlatform));
      var st1 := st.(fs := made.1);
      var st2 := CopyDlls(env, cfg, i, 0, st1);
      assert r == PrepareFrom(env, cfg, host, i + 1, st2);
      if i' == i {
        CopyDllsPersistCount(env, cfg, i, 0, st1, j');
        LaterEntriesMiss(env, cfg, host, i, st, j');
      } else {
        EntryPassesOver(env, cfg, host, i, st, i', j');
        PrepareFromPersistCount(env, cfg, host, i + 1, st2, i', j');
      }
      PersistCountSplice(st2.log, r.log, |st.log|, dst);
    }
  }

  /**
   * `_PrepareDlls` as a whole: each host DLL whose copy succeeds holds exactly
   * the source bytes, has been imported and tagged, and is persisted exactly
   * once when its settings changed and never otherwise; every other path keeps
   * its content and its importer, and no copy, import or persist event of
   * the pass names it.
   */
  lemma PrepareDllsEffect(env: Env, cfg: Config, host: RuntimePlatform, st: State)
    requires WellFormed(cfg)
    ensures var r := PrepareDlls(env, cfg, host, st);
      && (forall i, j :: HostPair(cfg, host, i, j) && CopySucceeds(env, cfg, st.fs, i, j) ==>
            && FileAt(r.fs, PluginPath(cfg, i, j)) == FileAt(st.fs, SourcePath(cfg, i, j))
            && ImporterAt(r, PluginPath(cfg, i, j)) == Tagged(env, cfg.table[i].target, PluginPath(cfg, i, j), ImporterAt(st, PluginPath(cfg, i, j)))
            && PersistCount(r.log, |st.log|, PluginPath(cfg, i, j)) ==
                 if Persists(env, cfg.table[i].target, PluginPath(cfg, i, j), ImporterAt(st, PluginPath(cfg, i, j))) then 1 else 0)
      && (forall q :: !OverwrittenByPass(env, cfg, host, st.fs, q) ==>
            && FileAt(r.fs, q) == FileAt(st.fs, q)
            && ImporterAt(r, q) == ImporterAt(st, q)
            && forall k :: |st.log| <= k < |r.log| ==> r.log[k].path != q)
  {
    var r := PrepareDlls(env, cfg, host, st);
    var made := CreateDirectory(st.fs, env.faults, PluginsDirectory);
    var st1 := st.(fs := made.1);
    assert r == PrepareFrom(env, cfg, host, 0, st1);
    forall i, j | 0 <= i < |cfg.table| && 0 <= j < |cfg.dllNames|
      ensures CopySucceeds(env, cfg, st1.fs, i, j) <==> CopySucceeds(env, cfg, st.fs, i, j)
    {
    }
    forall i, j | HostPair(cfg, host, i, j) && CopySucceeds(env, cfg, st.fs, i, j)
      ensures FileAt(r.fs, PluginPath(cfg, i, j)) == FileAt(st.fs, SourcePath(cfg, i, j))
      ensures ImporterAt(r, PluginPath(cfg, i, j)) == Tagged(env, cfg.table[i].target, PluginPath(cfg, i, j), ImporterAt(st, PluginPath(cfg, i, j)))
      ensures PersistCount(r.log, |st.log|, PluginPath(cfg, i, j)) ==
        if Persists(env, cfg.table[i].target, PluginPath(cfg, i, j), ImporterAt(st, PluginPath(cfg, i, j))) then 1 else 0
    {
      PrepareFromHit(env, cfg, host, 0, st1, i, j);
      PrepareFromPersistCount(env, cfg, host, 0, st1, i, j);
    }
    forall q | !OverwrittenByPass(env, cfg, host, st.fs, q)
      ensures FileAt(r.fs, q) == FileAt(st.fs, q) && ImporterAt(r, q) == ImporterAt(st, q)
      ensures forall k :: |st.log| <= k < |r.log| ==> r.log[k].path != q
    {
      PrepareFromMiss(env, cfg, host, 0, st1, q);
    }
  }

  /** Every host copy of the pass goes through. */
  predicate AllCopiesSucceed(env: Env, cfg: Config, host: RuntimePlatform, fs: FileSystem)
  {
    forall i, j | 0 <= i < |cfg.table| && 0 <= j < |cfg.dllNames| && cfg.table[i].editor == host ::
      CopySucceeds(env, cfg, fs, i, j)
  }

  /** No SDK path is ever overwritten by the pass. */
  lemma SourceNeverCopiedOnto(env: Env, cfg: Config, host: RuntimePlatform, fs: FileSystem, i: int, j: int)
    requires WellFormed(cfg)
    requires 0 <= i < |cfg.table| && 0 <= j < |cfg.dllNames|
    ensures !OverwrittenByPass(env, cfg, host, fs, SourcePath(cfg, i, j))
    ensures !OverwrittenByPass(env, cfg, host, fs, LockFileName)
  {
    forall i', j' | HostPair(cfg, host, i', j')
      ensures SourcePath(cfg, i, j) != PluginPath(cfg, i', j') && LockFileName != PluginPath(cfg, i', j')
    {
      SourceIsNotPlugin(cfg, i, j, i', j');
    }
  }

  /** The plugin path of pair (i, j) is copied onto by the pass exactly when that pair's own copy succeeds. */
  lemma CopiedExactlyWhenItsCopySucceeds(env: Env, cfg: Config, host: RuntimePlatform, fs: FileSystem, i: int, j: int)
    requires WellFormed(cfg)
    requires 0 <= i < |cfg.table| && 0 <= j < |cfg.dllNames|
    ensures OverwrittenByPass(env, cfg, host, fs, PluginPath(cfg, i, j)) <==> HostPair(cfg, host, i, j) && CopySucceeds(env, cfg, fs, i, j)
  {
    if OverwrittenByPass(env, cfg, host, fs, PluginPath(cfg, i, j)) {
      var i', j' :| HostPair(cfg, host, i', j') && CopySucceeds(env, cfg, fs, i', j') && PluginPath(cfg, i, j) == PluginPath(cfg, i', j');
      PluginPathInjective(cfg, i, j, i', j');
    }
  }

  /** After the pass, a pair whose copy succeeded is present and not stale. */
  lemma CopiedPairIsCurrent(env: Env, cfg: Config, host: RuntimePlatform, st: State, i: int, j: int)
    requires WellFormed(cfg)
    requires HostPair(cfg, host, i, j) && CopySucceeds(env, cfg, st.fs, i, j)
    ensures FileExists(PrepareDlls(env, cfg, host, st).fs, PluginPath(cfg, i, j))
    ensures !Stale(cfg, env.faults, PrepareDlls(env, cfg, host, st).fs, i, j)
  {
    PrepareDllsEffect(env, cfg, host, st);
    SourceNeverCopiedOnto(env, cfg, host, st.fs, i, j);
  }

  /** When every host copy succeeds, the pass leaves all plugins present and none stale. */
  lemma PrepareDllsMakesCurrent(env: Env, cfg: Config, host: RuntimePlatform, st: State)
    requires WellFormed(cfg)
    requires AllCopiesSucceed(env, cfg, host, st.fs)
    ensures AllPresent(cfg, host, PrepareDlls(env, cfg, host, st).fs)
    ensures !AnyExpired(cfg, host, env.faults, PrepareDlls(env, cfg, host, st).fs)
  {
    var r := PrepareDlls(env, cfg, host, st);
    forall i, j | HostPair(cfg, host, i, j)
      ensures FileExists(r.fs, PluginPath(cfg, i, j)) && !Stale(cfg, env.faults, r.fs, i, j)
    {
      CopiedPairIsCurrent(env, cfg, host, st, i, j);
    }
  }

  /** When every host copy succeeds, a second `Process` right after the first changes nothing. */
  lemma ProcessIdempotent(env: Env, cfg: Config, host: RuntimePlatform, st: State)
    requires WellFormed(cfg)
    requires AllCopiesSucceed(env, cfg, host, st.fs)
    ensures Process(env, cfg, host, Process(env, cfg, host, st)) == Process(env, cfg, host, st)
  {
    if SdkExists(st.fs) && (!AllPresent(cfg, host, st.fs) || AnyExpired(cfg, host, env.faults, st.fs)) {
      PrepareDllsMakesCurrent(env, cfg, host, st);
    }
  }

  /** The pass never creates the SDK directory, so `_IsExistsSenselLib` answers the same before and after `Process`. */
  lemma ProcessKeepsSdkVerdict(env: Env, cfg: Config, host: RuntimePlatform, st: State)
    ensures SdkExists(Process(env, cfg, host, st).fs) <==> SdkExists(st.fs)
  {
  }

  /** The pass keeps every SDK file and the outcome of every copy: readable source, ready directory, writable plugin. */
  lemma PassKeepsReadiness(env: Env, cfg: Config, host: RuntimePlatform, st: State, i: int, j: int)
    requires WellFormed(cfg)
    requires 0 <= i < |cfg.table| && 0 <= j < |cfg.dllNames|
    ensures FileAt(PrepareDlls(env, cfg, host, st).fs, SourcePath(cfg, i, j)) == FileAt(st.fs, SourcePath(cfg, i, j))
    ensures CopySucceeds(env, cfg, PrepareDlls(env, cfg, host, st).fs, i, j) <==> CopySucceeds(env, cfg, st.fs, i, j)
  {
    PrepareDllsEffect(env, cfg, host, st);
    SourceNeverCopiedOnto(env, cfg, host, st.fs, i, j);
  }

  /** Importing and tagging a plugin a second time leaves the importer the first round produced. */
  lemma TaggedIdempotent(env: Env, target: BuildTarget, path: Path, before: Option<Settings>)
    ensures Tagged(env, target, path, Tagged(env, target, path, before)) == Tagged(env, target, path, before)
  {
  }

  /** Two passes back to back: the second leaves the content and importer of `q` as the first left them. */
  lemma PrepareTwiceAt(env: Env, cfg: Config, host: RuntimePlatform, st: State, q: Path)
    requires WellFormed(cfg)
    ensures var once := PrepareDlls(env, cfg, host, st);
      var twice := PrepareDlls(env, cfg, host, once);
      && FileAt(twice.fs, q) == FileAt(once.fs, q)
      && ImporterAt(twice, q) == ImporterAt(once, q)
  {
    var once := PrepareDlls(env, cfg, host, st);
    PrepareDllsEffect(env, cfg, host, once);
    if OverwrittenByPass(env, cfg, host, once.fs, q) {
      var i, j :| HostPair(cfg, host, i, j) && CopySucceeds(env, cfg, once.fs, i, j) && q == PluginPath(cfg, i, j);
      PassKeepsReadiness(env, cfg, host, st, i, j);
      PrepareDllsEffect(env, cfg, host, st);
      TaggedIdempotent(env, cfg.table[i].target, q, ImporterAt(st, q));
    }
  }

  /** A plugin that has been imported and tagged once is never persisted again by a further copy. */
  lemma TaggedNeverPersists(env: Env, target: BuildTarget, path: Path, before: Option<Settings>)
    ensures !Persists(env, target, path, Tagged(env, target, path, before))
  {
    var imported := AfterImport(env, path, before);
    if imported.Some? {
      var setter := NewImporterSetter(target, path, imported);
      SetPluginIdempotent(setter);
      assert NewImporterSetter(target, path, Tagged(env, target, path, before)) == setter.SetPlugin().0;
    }
  }

  /** The second of two passes in a row logs no persist of any path. */
  lemma SecondPassPersistsNothingAt(env: Env, cfg: Config, host: RuntimePlatform, st: State, q: Path)
    requires WellFormed(cfg)
    ensures var once := PrepareDlls(env, cfg, host, st);
      var twice := PrepareDlls(env, cfg, host, once);
      forall k :: |once.log| <= k < |twice.log| ==> twice.log[k] != Persisted(q)
  {
    var once := PrepareDlls(env, cfg, host, st);
    var twice := PrepareDlls(env, cfg, host, once);
    PrepareDllsEffect(env, cfg, host, once);
    if OverwrittenByPass(env, cfg, host, once.fs, q) {
      var i, j :| HostPair(cfg, host, i, j) && CopySucceeds(env, cfg, once.fs, i, j) && q == PluginPath(cfg, i, j);
      PassKeepsReadiness(env, cfg, host, st, i, j);
      PrepareDllsEffect(env, cfg, host, st);
      TaggedNeverPersists(env, cfg.table[i].target, q, ImporterAt(st, q));
      NoPersistNoEvent(twice.log, |once.log|, q);
    }
  }

  /** Whatever the faults, a second `Process` right after the first logs no persist event. */
  lemma SecondProcessPersistsNothing(env: Env, cfg: Config, host: RuntimePlatform, st: State)
    requires WellFormed(cfg)
    ensures var once := Process(env, cfg, host, st);
      var twice := Process(env, cfg, host, once);
      forall k :: |once.log| <= k < |twice.log| ==> !twice.log[k].Persisted?
  {
    var once := Process(env, cfg, host, st);
    var twice := Process(env, cfg, host, once);
    if once != st && twice != once {
      assert once == PrepareDlls(env, cfg, host, st);
      assert twice == PrepareDlls(env, cfg, host, once);
      forall k | |once.log| <= k < |twice.log|
        ensures !twice.log[k].Persisted?
      {
        SecondPassPersistsNothingAt(env, cfg, host, st, twice.log[k].path);
      }
    }
  }

  /** Whatever the faults, a second `Process` right after the first leaves every file and importer as the first left them. */
  lemma SecondProcessKeepsContent(env: Env, cfg: Config, host: RuntimePlatform, st: State)
    requires WellFormed(cfg)
    ensures var once := Process(env, cfg, host, st);
      var twice := Process(env, cfg, host, once);
      && twice.fs.files == once.fs.files
      && twice.importers == once.importers
  {
    var once := Process(env, cfg, host, st);
    var twice := Process(env, cfg, host, once);
    if once != st && twice != once {
      assert once == PrepareDlls(env, cfg, host, st);
      assert twice == PrepareDlls(env, cfg, host, once);
      forall q
        ensures FileAt(twice.fs, q) == FileAt(once.fs, q)
        ensures ImporterAt(twice, q) == ImporterAt(once, q)
      {
        PrepareTwiceAt(env, cfg, host, st, q);
      }
      assert forall q :: q in twice.fs.files <==> FileAt(twice.fs, q).Some?;
      assert forall q :: q in twice.importers <==> ImporterAt(twice, q).Some?;
    }
  }

  /**
   * Without any assumption about faults, a second `Process` right after the
   * first leaves every file and every importer as the first left them: the
   * copies that went through go through again with the same bytes and the
   * same settings, and the ones that failed fail again. The second run
   * writes no import settings: it logs no persist event.
   */
  lemma ProcessSettles(env: Env, cfg: Config, host: RuntimePlatform, st: State)
    requires WellFormed(cfg)
    ensures var once := Process(env, cfg, host, st);
      var twice := Process(env, cfg, host, once);
      && twice.fs.files == once.fs.files
      && twice.importers == once.importers
      && forall k :: |once.log| <= k < |twice.log| ==> !twice.log[k].Persisted?
  {
    SecondProcessKeepsContent(env, cfg, host, st);
    SecondProcessPersistsNothing(env, cfg, host, st);
  }

  /**
   * A failed copy isolates only its own file: that plugin keeps its old
   * content and importer, while another DLL of the same entry whose copy
   * succeeds is still copied and tagged.
   */
  lemma FailedCopyIsIsolated(env: Env, cfg: Config, host: RuntimePlatform, st: State, i: int, failed: int, other: int)
    requires WellFormed(cfg)
    requires HostPair(cfg, host, i, failed) && HostPair(cfg, host, i, other)
    requires !CopySucceeds(env, cfg, st.fs, i, failed) && CopySucceeds(env, cfg, st.fs, i, other)
    ensures var r := PrepareDlls(env, cfg, host, st);
      && FileAt(r.fs, PluginPath(cfg, i, failed)) == FileAt(st.fs, PluginPath(cfg, i, failed))
      && ImporterAt(r, PluginPath(cfg, i, failed)) == ImporterAt(st, PluginPath(cfg, i, failed))
      && FileAt(r.fs, PluginPath(cfg, i, other)) == FileAt(st.fs, SourcePath(cfg, i, other))
      && ImporterAt(r, PluginPath(cfg, i, other)) == Tagged(env, cfg.table[i].target, PluginPath(cfg, i, other), ImporterAt(st, PluginPath(cfg, i, other)))
  {
    PrepareDllsEffect(env, cfg, host, st);
    CopiedExactlyWhenItsCopySucceeds(env, cfg, host, st.fs, i, failed);
  }

  /**
   * `_CreateDirectory` reports success even when creation throws, but the
   * copies into the missing directory then fail: none of that entry's
   * plugins changes.
   */
  lemma FailedDirectorySkipsEntry(env: Env, cfg: Config, host: RuntimePlatform, st: State, i: int, j: int)
    requires WellFormed(cfg)
    requires HostPair(cfg, host, i, j)
    requires !DirectoryExists(st.fs, PluginDirectory(cfg.table[i].pluginPlatform))
    requires PluginDirectory(cfg.table[i].pluginPlatform) in env.faults.mkdirFails
    ensures FileAt(PrepareDlls(env, cfg, host, st).fs, PluginPath(cfg, i, j)) == FileAt(st.fs, PluginPath(cfg, i, j))
    ensures ImporterAt(PrepareDlls(env, cfg, host, st), PluginPath(cfg, i, j)) == ImporterAt(st, PluginPath(cfg, i, j))
  {
    PrepareDllsEffect(env, cfg, host, st);
    CopiedExactlyWhenItsCopySucceeds(env, cfg, host, st.fs, i, j);
  }

  /** The pass never touches the plugins of an entry for another editor platform. */
  lemma OtherHostPluginsUntouched(env: Env, cfg: Config, host: RuntimePlatform, st: State, i: int, j: int)
    requires WellFormed(cfg)
    requires 0 <= i < |cfg.table| && 0 <= j < |cfg.dllNames| && cfg.table[i].editor != host
    ensures FileAt(PrepareDlls(env, cfg, host, st).fs, PluginPath(cfg, i, j)) == FileAt(st.fs, PluginPath(cfg, i, j))
    ensures ImporterAt(PrepareDlls(env, cfg, host, st), PluginPath(cfg, i, j)) == ImporterAt(st, PluginPath(cfg, i, j))
  {
    PrepareDllsEffect(env, cfg, host, st);
    CopiedExactlyWhenItsCopySucceeds(env, cfg, host, st.fs, i, j);
  }

  /** On a host no entry is for (the Sensel table on a non-Windows editor), `Process` changes nothing. */
  lemma ProcessOnForeignHost(env: Env, cfg: Config, host: RuntimePlatform, st: State)
    requires forall i :: 0 <= i < |cfg.table| ==> cfg.table[i].editor != host
    ensures Process(env, cfg, host, st) == st
  {
    NoEntriesForHost(cfg, host, env.faults, st.fs);
  }

  /**
   * Re-copying a plugin that already has its source bytes and all its target
   * settings leaves its content and importer as they were.
   */
  lemma RecopyOfCurrentPluginChangesNothing(env: Env, cfg: Config, host: RuntimePlatform, st: State, i: int, j: int, s: Settings)
    requires WellFormed(cfg)
    requires HostPair(cfg, host, i, j)
    requires FileAt(st.fs, PluginPath(cfg, i, j)) == FileAt(st.fs, SourcePath(cfg, i, j))
    requires ImporterAt(st, PluginPath(cfg, i, j)) == Some(s)
    requires forall k :: 0 <= k < |Plan(cfg.table[i].target)| ==> Holds(s, Plan(cfg.table[i].target)[k])
    ensures FileAt(PrepareDlls(env, cfg, host, st).fs, PluginPath(cfg, i, j)) == FileAt(st.fs, PluginPath(cfg, i, j))
    ensures ImporterAt(PrepareDlls(env, cfg, host, st), PluginPath(cfg, i, j)) == Some(s)
    ensures var r := PrepareDlls(env, cfg, host, st);
      forall k :: |st.log| <= k < |r.log| ==> r.log[k] != Persisted(PluginPath(cfg, i, j))
  {
    PrepareDllsEffect(env, cfg, host, st);
    CopiedExactlyWhenItsCopySucceeds(env, cfg, host, st.fs, i, j);
    assert !SomeDiffers(s, Plan(cfg.table[i].target));
    assert !Persists(env, cfg.table[i].target, PluginPath(cfg, i, j), Some(s));
    NoPersistNoEvent(PrepareDlls(env, cfg, host, st).log, |st.log|, PluginPath(cfg, i, j));
  }

  /** Once the lock file is written (or already there), a second static-constructor run does nothing. */
  lemma StaticInitRunsOnce(env: Env, cfg: Config, host: RuntimePlatform, isPlaying: bool, st: State)
    requires isPlaying || FileExists(st.fs, LockFileName) || CanWrite(st.fs, env.faults, LockFileName)
    ensures StaticInit(env, cfg, host, isPlaying, StaticInit(env, cfg, host, isPlaying, st)) == StaticInit(env, cfg, host, isPlaying, st)
  {
  }
}

/**
 * The two checks `Process` runs before deciding to copy: are all plugins
 * present (`_IsPreparedDlls`), and is any of them stale (`_IsExpiredDlls`).
 * Each is a loop as in the source, proved equal to a pure predicate.
 */
module Checks {
  import opened Wrappers
  import opened Bytes
  import opened Paths
  import opened Platforms
  import opened Storage

  /** Every DLL of every host entry is present at its plugin path. */
  predicate AllPresent(cfg: Config, host: RuntimePlatform, fs: FileSystem)
  {
    forall i, j | 0 <= i < |cfg.table| && 0 <= j < |cfg.dllNames| && cfg.table[i].editor == host ::
      FileExists(fs, PluginPath(cfg, i, j))
  }

  /** Both files of a pair exist and can be read, and their contents differ. */
  predicate Stale(cfg: Config, faults: Faults, fs: FileSystem, i: int, j: int)
    requires 0 <= i < |cfg.table| && 0 <= j < |cfg.dllNames|
  {
    var source := ReadAllBytes(fs, faults, SourcePath(cfg, i, j));
    var plugin := ReadAllBytes(fs, faults, PluginPath(cfg, i, j));
    source.Some? && plugin.Some? && source.value != plugin.value
  }

  /** Some host pair is stale; pairs with a missing or unreadable file never count. */
  predicate AnyExpired(cfg: Config, host: RuntimePlatform, faults: Faults, fs: FileSystem)
  {
    exists i, j | 0 <= i < |cfg.table| && 0 <= j < |cfg.dllNames| && cfg.table[i].editor == host ::
      Stale(cfg, faults, fs, i, j)
  }

  /** Some host pair before position (i, j), in table-then-DLL order, is missing its plugin. */
  ghost predicate MissingBefore(cfg: Config, host: RuntimePlatform, fs: FileSystem, i: int, j: int)
  {
    exists i', j' :: HostPair(cfg, host, i', j') && (i' < i || (i' == i && j' < j)) && !FileExists(fs, PluginPath(cfg, i', j'))
  }

  /** Some host pair before position (i, j) is stale. */
  ghost predicate StaleBefore(cfg: Config, host: RuntimePlatform, faults: Faults, fs: FileSystem, i: int, j: int)
  {
    exists i', j' :: HostPair(cfg, host, i', j') && (i' < i || (i' == i && j' < j)) && Stale(cfg, faults, fs, i', j')
  }

  /** `_IsPreparedDlls`: scans the host entries and reports whether no plugin file is missing. */
  method IsPreparedDlls(cfg: Config, host: RuntimePlatform, fs: FileSystem) returns (prepared: bool)
    ensures prepared <==> AllPresent(cfg, host, fs)
  {
    var missingAnything := false;
    var i := 0;
    while i < |cfg.table|
      invariant 0 <= i <= |cfg.table|
      invariant missingAnything <==> MissingBefore(cfg, host, fs, i, 0)
    {
      if cfg.table[i].editor == host {
        var j := 0;
        while j < |cfg.dllNames|
          invariant 0 <= j <= |cfg.dllNames|
          invariant missingAnything <==> MissingBefore(cfg, host, fs, i, j)
        {
          if !FileExists(fs, PluginPath(cfg, i, j)) {
            missingAnything := true;
          }
          j := j + 1;
        }
        assert MissingBefore(cfg, host, fs, i, |cfg.dllNames|) <==> MissingBefore(cfg, host, fs, i + 1, 0);
      } else {
        assert MissingBefore(cfg, host, fs, i, 0) <==> MissingBefore(cfg, host, fs, i + 1, 0);
      }
      i := i + 1;
    }
    assert MissingBefore(cfg, host, fs, i, 0) <==> !AllPresent(cfg, host, fs);
    return !missingAnything;
  }

  /**
   * `_IsExpiredDlls`: for each host pair whose files both exist and both
   * read, compares the bytes; reports whether any pair differed.
   */
  method IsExpiredDlls(cfg: Config, host: RuntimePlatform, faults: Faults, fs: FileSystem) returns (expired: bool)
    ensures expired <==> AnyExpired(cfg, host, faults, fs)
  {
    var expiredAnything := false;
    var i := 0;
    while i < |cfg.table|
      invariant 0 <= i <= |cfg.table|
      invariant expiredAnything <==> StaleBefore(cfg, host, faults, fs, i, 0)
    {
      if cfg.table[i].editor == host {
        var j := 0;
        while j < |cfg.dllNames|
          invariant 0 <= j <= |cfg.dllNames|
          invariant expiredAnything <==> StaleBefore(cfg, host, faults, fs, i, j)
        {
          var sourceFileName := SourcePath(cfg, i, j);
          var pluginName := PluginPath(cfg, i, j);
          ghost var found := expiredAnything;
          if FileExists(fs, sourceFileName) && FileExists(fs, pluginName) {
            var sourceBytes := ReadAllBytes(fs, faults, sourceFileName);
            var pluginBytes := ReadAllBytes(fs, faults, pluginName);
            if sourceBytes.Some? && pluginBytes.Some? {
              var same := IsEqualBytes(sourceBytes, pluginBytes);
              if !same {
                expiredAnything := true;
              }
            }
          }
          assert expiredAnything <==> found || Stale(cfg, faults, fs, i, j);
          assert StaleBefore(cfg, host, faults, fs, i, j + 1) <==>
            StaleBefore(cfg, host, faults, fs, i, j) || Stale(cfg, faults, fs, i, j);
          j := j + 1;
        }
        assert StaleBefore(cfg, host, faults, fs, i, |cfg.dllNames|) <==> StaleBefore(cfg, host, faults, fs, i + 1, 0);
      } else {
        assert StaleBefore(cfg, host, faults, fs, i, 0) <==> StaleBefore(cfg, host, faults, fs, i + 1, 0);
      }
      i := i + 1;
    }
    assert StaleBefore(cfg, host, faults, fs, i, 0) <==> AnyExpired(cfg, host, faults, fs);
    return expiredAnything;
  }

  /** Two tables that agree on every entry for `host` give the same presence and staleness verdicts. */
  lemma OtherHostEntriesIgnored(cfg: Config, cfg': Config, host: RuntimePlatform, faults: Faults, fs: FileSystem)
    requires cfg'.dllNames == cfg.dllNames && |cfg'.table| == |cfg.table|
    requires forall i :: 0 <= i < |cfg.table| && (cfg.table[i].editor == host || cfg'.table[i].editor == host) ==>
      cfg'.table[i] == cfg.table[i]
    ensures AllPresent(cfg', host, fs) <==> AllPresent(cfg, host, fs)
    ensures AnyExpired(cfg', host, faults, fs) <==> AnyExpired(cfg, host, faults, fs)
  {
    if AnyExpired(cfg', host, faults, fs) {
      var i, j :| 0 <= i < |cfg'.table| && 0 <= j < |cfg'.dllNames| && cfg'.table[i].editor == host && Stale(cfg', faults, fs, i, j);
      assert Stale(cfg, faults, fs, i, j);
    }
    if AnyExpired(cfg, host, faults, fs) {
      var i, j :| 0 <= i < |cfg.table| && 0 <= j < |cfg.dllNames| && cfg.table[i].editor == host && Stale(cfg, faults, fs, i, j);
      assert Stale(cfg', faults, fs, i, j);
    }
    if AllPresent(cfg, host, fs) {
      forall i, j | 0 <= i < |cfg'.table| && 0 <= j < |cfg'.dllNames| && cfg'.table[i].editor == host
        ensures FileExists(fs, PluginPath(cfg', i, j))
      {
        assert PluginPath(cfg', i, j) == PluginPath(cfg, i, j);
      }
    }
    if AllPresent(cfg', host, fs) {
      forall i, j | 0 <= i < |cfg.table| && 0 <= j < |cfg.dllNames| && cfg.table[i].editor == host
        ensures FileExists(fs, PluginPath(cfg, i, j))
      {
        assert PluginPath(cfg', i, j) == PluginPath(cfg, i, j);
      }
    }
  }

  /** A host with no table entry sees every plugin as present and nothing as expired. */
  lemma NoEntriesForHost(cfg: Config, host: RuntimePlatform, faults: Faults, fs: FileSystem)
    requires forall i :: 0 <= i < |cfg.table| ==> cfg.table[i].editor != host
    ensures AllPresent(cfg, host, fs)
    ensures !AnyExpired(cfg, host, faults, fs)
  {
  }
}

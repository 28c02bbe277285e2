/**
 * The fixed deployment table: which SDK platform directory feeds which
 * plugin platform directory, for which build target, on which editor host.
 */
module Platforms {
  import opened Paths

  /** An enum value of `BuildTarget` other than `StandaloneWindows` (5) and `StandaloneWindows64` (19). */
  type OtherCode = c: int | c != 5 && c != 19

  /** Unity build targets; `OtherTarget` carries the enum value of any target the table does not name. */
  datatype BuildTarget = StandaloneWindows | StandaloneWindows64 | OtherTarget(code: OtherCode)

  /** The integer value of a build target in Unity's `BuildTarget` enum. */
  function TargetCode(t: BuildTarget): int
  {
    match t
    case StandaloneWindows => 5
    case StandaloneWindows64 => 19
    case OtherTarget(c) => c
  }

  /** Each enum value names one build target, so the two Windows targets have no second spelling. */
  lemma TargetCodeInjective(t: BuildTarget, u: BuildTarget)
    ensures TargetCode(t) == TargetCode(u) <==> t == u
  {
  }

  /** Unity runtime platforms, as far as the host check distinguishes them. */
  datatype RuntimePlatform = WindowsEditor | OSXEditor | LinuxEditor | OtherRuntime

  /** One column of the four parallel tables `BuildTargets`, `EditorPlatforms`, `SenselLibPlatforms`, `PluginsPlatforms`. */
  datatype Mapping = Mapping(target: BuildTarget, editor: RuntimePlatform, libPlatform: string, pluginPlatform: string)

  /** The mapping table together with the list of DLLs each mapping deploys. */
  datatype Config = Config(table: seq<Mapping>, dllNames: seq<string>)

  /** The table of the Sensel package: 32-bit and 64-bit Windows, two DLLs each. */
  const Sensel: Config := Config(
    [ Mapping(StandaloneWindows, WindowsEditor, "x86", "x86"),
      Mapping(StandaloneWindows64, WindowsEditor, "x64", "x86_64") ],
    [ "LibSensel.dll", "LibSenselDecompress.dll" ])

  /** Entry `i` and DLL `j` exist, and entry `i` is for the running editor. */
  predicate HostPair(cfg: Config, host: RuntimePlatform, i: int, j: int)
  {
    0 <= i < |cfg.table| && 0 <= j < |cfg.dllNames| && cfg.table[i].editor == host
  }

  /** Where the SDK keeps DLL `j` for entry `i`. */
  function SourcePath(cfg: Config, i: int, j: int): Path
    requires 0 <= i < |cfg.table| && 0 <= j < |cfg.dllNames|
  {
    SenselLibPath(cfg.table[i].libPlatform, cfg.dllNames[j])
  }

  /** Where the project keeps DLL `j` for entry `i`. */
  function PluginPath(cfg: Config, i: int, j: int): Path
    requires 0 <= i < |cfg.table| && 0 <= j < |cfg.dllNames|
  {
    PluginName(cfg.table[i].pluginPlatform, cfg.dllNames[j])
  }

  /** Every tag and DLL name is one plain path component, plugin platforms are distinct, DLL names are distinct. */
  predicate WellFormed(cfg: Config)
  {
    && (forall i :: 0 <= i < |cfg.table| ==> PlainName(cfg.table[i].libPlatform) && PlainName(cfg.table[i].pluginPlatform))
    && (forall i, i' :: 0 <= i < |cfg.table| && 0 <= i' < |cfg.table| && i != i' ==>
          cfg.table[i].pluginPlatform != cfg.table[i'].pluginPlatform)
    && (forall j :: 0 <= j < |cfg.dllNames| ==> PlainName(cfg.dllNames[j]))
    && (forall j, j' :: 0 <= j < |cfg.dllNames| && 0 <= j' < |cfg.dllNames| && j != j' ==>
          cfg.dllNames[j] != cfg.dllNames[j'])
  }

  /** The Sensel table satisfies the naming assumptions the synchroniser's lemmas rely on. */
  lemma SenselWellFormed()
    ensures WellFormed(Sensel)
  {
    var t, d := Sensel.table, Sensel.dllNames;
    assert t[0].libPlatform == "x86" && t[1].libPlatform == "x64";
    assert t[0].pluginPlatform == "x86" && t[1].pluginPlatform == "x86_64";
    assert PlainName("x86") && PlainName("x64") && PlainName("x86_64");
    assert PlainName(d[0]) && PlainName(d[1]);
    assert |d[0]| != |d[1]|;
  }

  /** Under `WellFormed`, distinct (entry, DLL) pairs have distinct plugin paths. */
  lemma PluginPathInjective(cfg: Config, i: int, j: int, i': int, j': int)
    requires WellFormed(cfg)
    requires 0 <= i < |cfg.table| && 0 <= j < |cfg.dllNames|
    requires 0 <= i' < |cfg.table| && 0 <= j' < |cfg.dllNames|
    requires PluginPath(cfg, i, j) == PluginPath(cfg, i', j')
    ensures i == i' && j == j'
  {
    PluginNameInjective(cfg.table[i].pluginPlatform, cfg.dllNames[j], cfg.table[i'].pluginPlatform, cfg.dllNames[j']);
  }

  /** Under `WellFormed`, no SDK path and not the lock file is ever a plugin path. */
  lemma SourceIsNotPlugin(cfg: Config, i: int, j: int, i': int, j': int)
    requires WellFormed(cfg)
    requires 0 <= i < |cfg.table| && 0 <= j < |cfg.dllNames|
    requires 0 <= i' < |cfg.table| && 0 <= j' < |cfg.dllNames|
    ensures SourcePath(cfg, i, j) != PluginPath(cfg, i', j')
    ensures LockFileName != PluginPath(cfg, i', j')
  {
    DistinctRoots(cfg.table[i].libPlatform, cfg.dllNames[j], cfg.table[i'].pluginPlatform, cfg.dllNames[j']);
  }
}

/**
 * Path construction for the plugin synchroniser: where the SDK keeps each
 * DLL (`_GetSenselLibPath`) and where the project keeps its copy
 * (`_GetPluginDirectory`, `_GetPluginName`).
 */
module Paths {

  type Path = string

  /** The SDK install directory on a Windows host. */
  const SenselLibDirectory: Path := @"C:\Program Files\Sensel\SenselLib"

  /** The project-relative root of the vendored plugins. */
  const PluginsDirectory: Path := "Assets/Sensel/Plugins"

  /** The marker file of the once-per-session gate. */
  const LockFileName: Path := "Temp/_SenselPrepareDll_Locked"

  /** Separator characters of `System.IO.Path` on Windows. */
  const DirectorySeparator: char := '\\'
  const AltDirectorySeparator: char := '/'
  const VolumeSeparator: char := ':'

  predicate IsSeparator(c: char)
  {
    c == DirectorySeparator || c == AltDirectorySeparator
  }

  /** No directory separator anywhere in `s`. */
  predicate NoSeparator(s: string)
  {
    forall k :: 0 <= k < |s| ==> !IsSeparator(s[k])
  }

  /** A single non-empty path component: no separator and no volume colon. */
  predicate PlainName(s: string)
  {
    |s| > 0 && NoSeparator(s) && forall k :: 0 <= k < |s| ==> s[k] != VolumeSeparator
  }

  /** `Path.IsPathRooted` on Windows: a leading separator or a drive letter. */
  predicate IsRooted(p: Path)
  {
    |p| > 0 && (IsSeparator(p[0]) || (|p| > 1 && p[1] == VolumeSeparator))
  }

  /**
   * `Path.Combine(path1, path2)` on Windows: an empty side yields the other,
   * a rooted `path2` replaces `path1`, and a separator is inserted unless
   * `path1` already ends in one (or in the volume colon).
   */
  function Combine(path1: Path, path2: Path): (r: Path)
    ensures |path2| == 0 ==> r == path1
    ensures IsRooted(path2) ==> r == path2
    ensures PlainName(path2) ==> r == path1 + path2 || r == path1 + [DirectorySeparator] + path2
    ensures PlainName(path2) && |path1| > 0 && !IsSeparator(path1[|path1| - 1]) && path1[|path1| - 1] != VolumeSeparator ==>
      Parent(r) == path1
  {
    if |path1| == 0 then path2
    else if |path2| == 0 then path1
    else if IsRooted(path2) then path2
    else if IsSeparator(path1[|path1| - 1]) || path1[|path1| - 1] == VolumeSeparator then path1 + path2
    else
      if PlainName(path2) then
        ParentOfJoin(path1, DirectorySeparator, path2);
        path1 + [DirectorySeparator] + path2
      else
        path1 + [DirectorySeparator] + path2
  }

  /** The directory part of a path: everything before its last separator ("" when there is none). */
  function Parent(p: Path): Path
    decreases |p|
  {
    if |p| == 0 then ""
    else if IsSeparator(p[|p| - 1]) then p[..|p| - 1]
    else Parent(p[..|p| - 1])
  }

  /** `_GetSenselLibPath`: the SDK directory combined with the platform and then the DLL name. */
  function SenselLibPath(platform: string, dllName: string): (r: Path)
    ensures PlainName(platform) && PlainName(dllName) ==>
      r == SenselLibDirectory + [DirectorySeparator] + platform + [DirectorySeparator] + dllName
  {
    var dir := Combine(SenselLibDirectory, platform);
    if PlainName(platform) && PlainName(dllName) then
      assert !IsRooted(platform) by { assert platform[0] != VolumeSeparator; }
      assert !IsRooted(dllName) by { assert dllName[0] != VolumeSeparator; }
      assert dir == SenselLibDirectory + [DirectorySeparator] + platform;
      assert dir[|dir| - 1] == platform[|platform| - 1];
      Combine(dir, dllName)
    else
      Combine(dir, dllName)
  }

  /** `p` lies at or below the plugin root. */
  predicate UnderPlugins(p: Path)
  {
    |PluginsDirectory| <= |p| && p[..|PluginsDirectory|] == PluginsDirectory
  }

  /** `_GetPluginDirectory`: the plugin root joined with the platform by '/', one level below the root. */
  function PluginDirectory(platform: string): (r: Path)
    ensures UnderPlugins(r)
    ensures NoSeparator(platform) ==> Parent(r) == PluginsDirectory
  {
    var r := PluginsDirectory + "/" + platform;
    assert r[..|PluginsDirectory|] == PluginsDirectory;
    if NoSeparator(platform) then
      ParentOfJoin(PluginsDirectory, '/', platform);
      r
    else
      r
  }

  /** `_GetPluginName`: the plugin root, platform and DLL name joined by '/'. */
  function PluginName(platform: string, dllName: string): (r: Path)
    ensures r == PluginDirectory(platform) + "/" + dllName
    ensures NoSeparator(dllName) ==> Parent(r) == PluginDirectory(platform)
  {
    var r := PluginsDirectory + "/" + platform + "/" + dllName;
    if NoSeparator(dllName) then
      ParentOfJoin(PluginDirectory(platform), '/', dllName);
      r
    else
      r
  }

  /** Stripping the last component of `dir + sep + name` gives back `dir`. */
  lemma {:induction false} ParentOfJoin(dir: Path, sep: char, name: string)
    requires IsSeparator(sep)
    requires NoSeparator(name)
    ensures Parent(dir + [sep] + name) == dir
    decreases |name|
  {
    var p := dir + [sep] + name;
    if |name| == 0 {
      assert p[..|p| - 1] == dir;
    } else {
      var shorter := name[..|name| - 1];
      assert p[..|p| - 1] == dir + [sep] + shorter;
      assert p[|p| - 1] == name[|name| - 1];
      ParentOfJoin(dir, sep, shorter);
    }
  }

  /** Distinct (platform, DLL) pairs with separator-free DLL names never share a plugin path. */
  lemma PluginNameInjective(p1: string, d1: string, p2: string, d2: string)
    requires NoSeparator(d1) && NoSeparator(d2)
    requires PluginName(p1, d1) == PluginName(p2, d2)
    ensures p1 == p2 && d1 == d2
  {
    var prefix := PluginsDirectory + "/";
    assert PluginDirectory(p1) == PluginDirectory(p2);
    assert PluginDirectory(p1)[|prefix|..] == p1;
    assert PluginDirectory(p2)[|prefix|..] == p2;
    var n := PluginName(p1, d1);
    var k := |PluginDirectory(p1)| + 1;
    assert n[k..] == d1;
    assert PluginName(p2, d2)[k..] == d2;
  }

  /** SDK paths, plugin paths and the lock file live under different roots, so they never coincide. */
  lemma DistinctRoots(lib: string, dll: string, platform: string, name: string)
    requires PlainName(lib) && PlainName(dll)
    ensures SenselLibPath(lib, dll) != PluginName(platform, name)
    ensures SenselLibPath(lib, dll) != LockFileName
    ensures PluginName(platform, name) != LockFileName
  {
    assert SenselLibPath(lib, dll)[0] == 'C';
    assert PluginName(platform, name)[0] == 'A';
    assert LockFileName[0] == 'T';
  }
}

/**
 * `_PluginImporterSetter`: applies a fixed set of platform-compatibility
 * settings to a plugin's importer, writing each setting only when it
 * differs, and persisting once, only when something was written.
 */
module PluginSettings {
  import opened Wrappers
  import opened Paths
  import opened Platforms

  /** The two overloads of the importer API: a platform named by string, or by build target. */
  datatype Platform = Named(name: string) | Target(target: BuildTarget)

  const Editor: Platform := Named("Editor")

  /**
   * The importer settings the setter reads and writes: compatible-with-any-
   * platform, per-platform compatibility, and per-platform key/value data.
   * An absent compatibility entry reads as false, absent data as "".
   */
  datatype Settings = Settings(anyPlatform: bool, compatible: map<Platform, bool>, data: map<(Platform, string), string>)

  /** One readable and writable place in the settings. */
  datatype Slot = AnyPlatformSlot | CompatibleSlot(platform: Platform) | DataSlot(platform: Platform, key: string)

  datatype Value = Flag(enabled: bool) | Text(text: string)

  /** The getters: `GetCompatibleWithAnyPlatform`, `GetCompatibleWithPlatform`, `GetPlatformData`. */
  function Read(s: Settings, slot: Slot): Value
  {
    match slot
    case AnyPlatformSlot => Flag(s.anyPlatform)
    case CompatibleSlot(p) => Flag(if p in s.compatible then s.compatible[p] else false)
    case DataSlot(p, key) => Text(if (p, key) in s.data then s.data[(p, key)] else "")
  }

  /** One guarded setter call of the source, with its desired value. */
  datatype Write =
    | SetAnyPlatform(enable: bool)
    | SetCompatible(platform: Platform, enable: bool)
    | SetData(platform: Platform, key: string, value: string)
  {
    function Where(): Slot
    {
      match this
      case SetAnyPlatform(_) => AnyPlatformSlot
      case SetCompatible(p, _) => CompatibleSlot(p)
      case SetData(p, key, _) => DataSlot(p, key)
    }

    function Desired(): Value
    {
      match this
      case SetAnyPlatform(e) => Flag(e)
      case SetCompatible(_, e) => Flag(e)
      case SetData(_, _, v) => Text(v)
    }

    /** The build-target overloads skip a target whose enum value is negative. */
    predicate Addressable()
    {
      match this
      case SetAnyPlatform(_) => true
      case SetCompatible(p, _) => p.Target? ==> TargetCode(p.target) >= 0
      case SetData(p, _, _) => p.Target? ==> TargetCode(p.target) >= 0
    }
  }

  /** The setting already has the desired value. */
  predicate Holds(s: Settings, w: Write)
  {
    Read(s, w.Where()) == w.Desired()
  }

  /** The setters: `SetCompatibleWithAnyPlatform`, `SetCompatibleWithPlatform`, `SetPlatformData`. */
  function Apply(s: Settings, w: Write): (r: Settings)
    ensures Holds(r, w)
    ensures forall slot :: slot != w.Where() ==> Read(r, slot) == Read(s, slot)
  {
    match w
    case SetAnyPlatform(e) => s.(anyPlatform := e)
    case SetCompatible(p, e) => s.(compatible := s.compatible[p := e])
    case SetData(p, key, v) => s.(data := s.data[(p, key) := v])
  }

  /** The CPU tag the source writes for a Windows build target. */
  function CpuTag(t: BuildTarget): string
  {
    if t == StandaloneWindows64 then "x86_64" else "x86"
  }

  /** `_SetPlugin_x86` / `_SetPlugin_x86_64`: the six writes, in source order, for one Windows target. */
  function WindowsPlan(t: BuildTarget): seq<Write>
  {
    [ SetAnyPlatform(false),
      SetCompatible(Editor, true),
      SetData(Editor, "OS", "Windows"),
      SetData(Editor, "CPU", CpuTag(t)),
      SetCompatible(Target(t), true),
      SetData(Target(t), "CPU", CpuTag(t)) ]
  }

  /** The `switch` of `SetPlugin`: the two Windows targets have a plan, any other target writes nothing. */
  function Plan(t: BuildTarget): seq<Write>
  {
    match t
    case StandaloneWindows => WindowsPlan(t)
    case StandaloneWindows64 => WindowsPlan(t)
    case OtherTarget(_) => []
  }

  /** No two writes of a plan touch the same slot. */
  predicate DistinctSlots(ws: seq<Write>)
  {
    forall a, b :: 0 <= a < |ws| && 0 <= b < |ws| && a != b ==> ws[a].Where() != ws[b].Where()
  }

  /** No write of `ws` touches `slot`. */
  predicate Untouched(ws: seq<Write>, slot: Slot)
  {
    forall k :: 0 <= k < |ws| ==> ws[k].Where() != slot
  }

  /** Some write of `ws` asks for a value that `s` does not hold yet. */
  predicate SomeDiffers(s: Settings, ws: seq<Write>)
  {
    exists k :: 0 <= k < |ws| && !Holds(s, ws[k])
  }

  /** Every write of every plan is addressable, and a plan never writes one slot twice. */
  lemma PlanIsWellFormed(t: BuildTarget)
    ensures DistinctSlots(Plan(t))
    ensures forall k :: 0 <= k < |Plan(t)| ==> Plan(t)[k].Addressable()
  {
  }

  /** The setter object: its build target, plugin path, importer (null when `GetAtPath` failed) and dirty flag. */
  datatype ImporterSetter = ImporterSetter(buildTarget: BuildTarget, pluginName: Path, importer: Option<Settings>, isWritten: bool)
  {
    /** `isExists`: `GetAtPath` found an importer; without one, every guarded setter skips its write. */
    predicate IsExists()
      ensures !IsExists() ==> forall w: Write :: !Pending(w)
    {
      importer.Some?
    }

    /** A write that would change the importer: it exists, the target is addressable, the value differs. */
    predicate Pending(w: Write)
    {
      importer.Some? && w.Addressable() && !Holds(importer.value, w)
    }

    /** One guarded setter: writes only a differing value, and only then marks the setter dirty. */
    function SetIfDifferent(w: Write): (r: ImporterSetter)
      ensures r.buildTarget == buildTarget && r.pluginName == pluginName
      ensures r.importer.Some? <==> importer.Some?
      ensures r.isWritten <==> isWritten || Pending(w)
      ensures importer.Some? && w.Addressable() ==> Holds(r.importer.value, w)
      ensures importer.Some? ==> forall slot :: slot != w.Where() ==> Read(r.importer.value, slot) == Read(importer.value, slot)
      ensures !Pending(w) ==> r == this
    {
      if Pending(w) then this.(importer := Some(Apply(importer.value, w)), isWritten := true) else this
    }

    /** The setter calls of one plan, in order. */
    function SetAll(ws: seq<Write>): (r: ImporterSetter)
      ensures r.buildTarget == buildTarget && r.pluginName == pluginName
      ensures r.importer.Some? <==> importer.Some?
      ensures isWritten ==> r.isWritten
      ensures importer.None? ==> r == this
      decreases |ws|
    {
      if |ws| == 0 then this else SetIfDifferent(ws[0]).SetAll(ws[1..])
    }

    /** `_WriteImportSettingsIfDirty`: persists and refreshes only when dirty, and clears the flag; the bool says whether it persisted. */
    function WriteImportSettingsIfDirty(): (r: (ImporterSetter, bool))
      ensures r.1 == isWritten
      ensures !r.0.isWritten
      ensures r.0 == this.(isWritten := false)
    {
      if isWritten then (this.(isWritten := false), true) else (this, false)
    }

    /**
     * `SetPlugin`: the target's plan, then at most one persist; the bool says
     * whether it persisted. On an existing importer every planned setting
     * holds afterwards and nothing outside the plan moves; it persists
     * exactly when the setter was dirty or some planned setting differed,
     * and for a clean setter that is exactly when the importer changed.
     */
    function SetPlugin(): (r: (ImporterSetter, bool))
      ensures r.0.buildTarget == buildTarget && r.0.pluginName == pluginName
      ensures r.0.importer.Some? <==> importer.Some?
      ensures !r.0.isWritten
      ensures importer.Some? ==> forall k :: 0 <= k < |Plan(buildTarget)| ==>
        Holds(r.0.importer.value, Plan(buildTarget)[k])
      ensures importer.Some? ==> forall slot :: Untouched(Plan(buildTarget), slot) ==>
        Read(r.0.importer.value, slot) == Read(importer.value, slot)
      ensures r.1 <==> isWritten || (importer.Some? && SomeDiffers(importer.value, Plan(buildTarget)))
      ensures !isWritten ==> (r.1 <==> r.0.importer != importer)
      ensures importer.None? ==> r.0.importer == importer
    {
      if importer.Some? then
        PlanIsWellFormed(buildTarget);
        SetAllEffect(this, Plan(buildTarget));
        SetAll(Plan(buildTarget)).WriteImportSettingsIfDirty()
      else
        SetAll(Plan(buildTarget)).WriteImportSettingsIfDirty()
    }
  }

  /** `new _PluginImporterSetter(buildTarget, pluginName)`: a clean setter around whatever `GetAtPath` returned. */
  function NewImporterSetter(buildTarget: BuildTarget, pluginName: Path, found: Option<Settings>): (r: ImporterSetter)
    ensures r.buildTarget == buildTarget && r.pluginName == pluginName
    ensures !r.isWritten && r.importer == found
    ensures r.IsExists() <==> found.Some?
  {
    ImporterSetter(buildTarget, pluginName, found, false)
  }

  /**
   * Running a slot-disjoint list of addressable writes: afterwards every
   * write holds, untouched slots keep their values, the dirty flag is set
   * exactly when some write differed, and the importer changed exactly then.
   */
  lemma {:induction false} SetAllEffect(setter: ImporterSetter, ws: seq<Write>)
    requires setter.IsExists()
    requires DistinctSlots(ws)
    requires forall k :: 0 <= k < |ws| ==> ws[k].Addressable()
    ensures setter.SetAll(ws).IsExists()
    ensures forall k :: 0 <= k < |ws| ==> Holds(setter.SetAll(ws).importer.value, ws[k])
    ensures forall slot :: Untouched(ws, slot) ==> Read(setter.SetAll(ws).importer.value, slot) == Read(setter.importer.value, slot)
    ensures setter.SetAll(ws).isWritten <==> setter.isWritten || SomeDiffers(setter.importer.value, ws)
    ensures SomeDiffers(setter.importer.value, ws) <==> setter.SetAll(ws).importer != setter.importer
    decreases |ws|
  {
    var r := setter.SetAll(ws);
    if |ws| == 0 {
      assert !SomeDiffers(setter.importer.value, ws);
    } else {
      var w := ws[0];
      var rest := ws[1..];
      var s1 := setter.SetIfDifferent(w);
      assert r == s1.SetAll(rest);
      assert DistinctSlots(rest) by {
        forall a, b | 0 <= a < |rest| && 0 <= b < |rest| && a != b
          ensures rest[a].Where() != rest[b].Where()
        {
          assert rest[a] == ws[a + 1] && rest[b] == ws[b + 1];
        }
      }
      assert forall k :: 0 <= k < |rest| ==> rest[k] == ws[k + 1];
      SetAllEffect(s1, rest);
      var init := setter.importer.value;
      var mid := s1.importer.value;
      var fin := r.importer.value;
      assert Untouched(rest, w.Where()) by {
        forall k | 0 <= k < |rest| ensures rest[k].Where() != w.Where()
        {
          assert rest[k] == ws[k + 1];
        }
      }
      assert Holds(fin, w);
      forall k | 0 <= k < |rest|
        ensures Holds(mid, rest[k]) <==> Holds(init, rest[k])
      {
        assert rest[k].Where() != w.Where();
      }
      assert SomeDiffers(init, ws) <==> !Holds(init, w) || SomeDiffers(mid, rest) by {
        if SomeDiffers(init, ws) {
          var k :| 0 <= k < |ws| && !Holds(init, ws[k]);
          if k > 0 {
            assert ws[k] == rest[k - 1];
          }
        }
        if SomeDiffers(mid, rest) {
          var k :| 0 <= k < |rest| && !Holds(mid, rest[k]);
          assert ws[k + 1] == rest[k];
        }
      }
      forall slot | Untouched(ws, slot)
        ensures Read(fin, slot) == Read(init, slot)
      {
        assert ws[0].Where() != slot;
        assert Untouched(rest, slot) by {
          forall k | 0 <= k < |rest| ensures rest[k].Where() != slot
          {
            assert rest[k] == ws[k + 1];
          }
        }
      }
      if SomeDiffers(init, ws) {
        var k :| 0 <= k < |ws| && !Holds(init, ws[k]);
        assert Holds(fin, ws[k]) by {
          if k > 0 {
            assert ws[k] == rest[k - 1];
          }
        }
      } else {
        assert Holds(init, w);
        assert s1 == setter;
      }
    }
  }

  /** A second `SetPlugin` on the settings the first one left behind writes nothing and persists nothing. */
  lemma SetPluginIdempotent(setter: ImporterSetter)
    requires setter.IsExists()
    ensures setter.SetPlugin().0.SetPlugin() == (setter.SetPlugin().0, false)
  {
  }

  /** Without an importer (`GetAtPath` returned null) a clean setter changes nothing and persists nothing. */
  lemma SetPluginWithoutImporter(setter: ImporterSetter)
    requires !setter.IsExists() && !setter.isWritten
    ensures setter.SetPlugin() == (setter, false)
  {
  }

  /** The six settings `_SetPlugin_x86` / `_SetPlugin_x86_64` touch for target `t`. */
  function WindowsSlots(t: BuildTarget): set<Slot>
  {
    { AnyPlatformSlot,
      CompatibleSlot(Named("Editor")),
      DataSlot(Named("Editor"), "OS"),
      DataSlot(Named("Editor"), "CPU"),
      CompatibleSlot(Target(t)),
      DataSlot(Target(t), "CPU") }
  }

  /**
   * The settings `SetPlugin` leaves for a Windows target: not compatible with
   * any platform; Editor compatible with OS Windows and the target's CPU;
   * the target itself compatible with the same CPU, which is `x86_64` for
   * the 64-bit target and `x86` for the 32-bit one; every other setting
   * keeps its value.
   */
  lemma WindowsTargetSettings(setter: ImporterSetter)
    requires setter.IsExists()
    requires setter.buildTarget == StandaloneWindows || setter.buildTarget == StandaloneWindows64
    ensures var s := setter.SetPlugin().0.importer.value;
      && Read(s, AnyPlatformSlot) == Flag(false)
      && Read(s, CompatibleSlot(Named("Editor"))) == Flag(true)
      && Read(s, DataSlot(Named("Editor"), "OS")) == Text("Windows")
      && Read(s, DataSlot(Named("Editor"), "CPU")) == Text(CpuTag(setter.buildTarget))
      && Read(s, CompatibleSlot(Target(setter.buildTarget))) == Flag(true)
      && Read(s, DataSlot(Target(setter.buildTarget), "CPU")) == Text(CpuTag(setter.buildTarget))
    ensures var s := setter.SetPlugin().0.importer.value;
      setter.buildTarget == StandaloneWindows64 ==>
        Read(s, DataSlot(Named("Editor"), "CPU")) == Text("x86_64") && Read(s, DataSlot(Target(StandaloneWindows64), "CPU")) == Text("x86_64")
    ensures var s := setter.SetPlugin().0.importer.value;
      setter.buildTarget == StandaloneWindows ==>
        Read(s, DataSlot(Named("Editor"), "CPU")) == Text("x86") && Read(s, DataSlot(Target(StandaloneWindows), "CPU")) == Text("x86")
    ensures forall slot :: slot !in WindowsSlots(setter.buildTarget) ==>
      Read(setter.SetPlugin().0.importer.value, slot) == Read(setter.importer.value, slot)
  {
    var plan := Plan(setter.buildTarget);
    assert plan == WindowsPlan(setter.buildTarget);
    var s := setter.SetPlugin().0.importer.value;
    assert Holds(s, plan[0]) && Holds(s, plan[1]) && Holds(s, plan[2]);
    assert Holds(s, plan[3]) && Holds(s, plan[4]) && Holds(s, plan[5]);
    forall slot | slot !in WindowsSlots(setter.buildTarget)
      ensures Read(s, slot) == Read(setter.importer.value, slot)
    {
      assert Untouched(plan, slot);
    }
  }

  /** A target outside the `switch` leaves the importer as it was. */
  lemma OtherTargetUntouched(setter: ImporterSetter)
    requires setter.buildTarget.OtherTarget?
    ensures setter.SetPlugin().0.importer == setter.importer
    ensures setter.SetPlugin().1 == setter.isWritten
  {
  }
}

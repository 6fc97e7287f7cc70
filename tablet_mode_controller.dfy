/**
 * The posture store. The registry is a value: the keys that exist, a map from
 * (key path, value name) to the stored value, and the keys a write-access open
 * fails on (the process lacks the right, so the source's `catch` swallows it).
 */
module TabletMode {
  import opened Wrappers
  import opened Numbers

  newtype byte = x: int | 0 <= x < 256

  /** The kinds of registry data `GetValue` can hand back, as far as the core reads them. */
  datatype RegValue =
    | DWord(d: int)
    | QWord(q: int)
    | Text(s: string)
    | Binary(bytes: seq<byte>)

  type ValueName = (string, string)

  datatype Registry = Registry(keys: set<string>, values: map<ValueName, RegValue>, denied: set<string>)

  /** The `ModeChanged` event payload. */
  datatype ModeChangedArgs = ModeChangedArgs(isDesktopMode: bool)

  const ConvertibleSlateKey: string := "HKEY_LOCAL_MACHINE\\SYSTEM\\CurrentControlSet\\Control\\PriorityControl"
  const ImmersiveShellKey: string := "HKEY_CURRENT_USER\\SOFTWARE\\Microsoft\\Windows\\CurrentVersion\\ImmersiveShell"
  const StuckRectsKey: string := "HKEY_CURRENT_USER\\SOFTWARE\\Microsoft\\Windows\\CurrentVersion\\Explorer\\StuckRects3"

  const SlateMode: ValueName := (ConvertibleSlateKey, "ConvertibleSlateMode")
  const ShellTabletMode: ValueName := (ImmersiveShellKey, "TabletMode")
  const ShellPostureTaskbar: ValueName := (ImmersiveShellKey, "TabletPostureTaskbar")
  const TaskbarSettings: ValueName := (StuckRectsKey, "Settings")

  /** The index of the auto-hide flag inside the StuckRects3 `Settings` blob. */
  const AutoHideIndex: nat := 8

  /** `Convert.ToInt32(value)`: None where it throws (a binary blob, bad text, a 64-bit value out of range). */
  function ToInt32(v: RegValue): (r: Option<int>)
    ensures v.DWord? ==> r == Some(v.d)
    ensures v.QWord? ==> (r.Some? <==> IsInt32(v.q)) && (r.Some? ==> r.value == v.q)
    ensures v.Text? && r.Some? ==> IsInt32(r.value)
    ensures v.Binary? ==> r.None?
  {
    match v
    case DWord(d) => Some(d)
    case QWord(q) => if IsInt32(q) then Some(q) else None
    case Text(s) => ParseInt32(s)
    case Binary(_) => None
  }

  /** What `IsTabletMode` reads: the ConvertibleSlateMode value exists and converts to 0. */
  predicate TabletFlag(reg: Registry) {
    ConvertibleSlateKey in reg.keys && SlateMode in reg.values && ToInt32(reg.values[SlateMode]) == Some(0)
  }

  /** `OpenSubKey(ConvertibleSlatePath, true)` returns a key and does not throw. */
  predicate SlateWritable(reg: Registry) {
    ConvertibleSlateKey in reg.keys && ConvertibleSlateKey !in reg.denied
  }

  function SlateDWord(enableTabletMode: bool): int {
    if enableTabletMode then 0 else 1
  }

  function ShellDWord(enableTabletMode: bool): int {
    if enableTabletMode then 1 else 0
  }

  function AutoHideByte(autoHide: bool): byte {
    if autoHide then 0x03 else 0x02
  }

  /** The registry after `SetConvertibleSlateMode`. */
  function SlateWritten(reg: Registry, enableTabletMode: bool): Registry {
    if SlateWritable(reg) then reg.(values := reg.values[SlateMode := DWord(SlateDWord(enableTabletMode))])
    else reg
  }

  /** The registry after `SetImmersiveShellSettings`; `CreateSubKey` makes the key when it is missing. */
  function ShellWritten(reg: Registry, enableTabletMode: bool): Registry {
    if ImmersiveShellKey in reg.denied then reg
    else
      reg.(keys := reg.keys + {ImmersiveShellKey},
           values := reg.values[ShellTabletMode := DWord(ShellDWord(enableTabletMode))]
                               [ShellPostureTaskbar := DWord(ShellDWord(enableTabletMode))])
  }

  /** The settings blob with its auto-hide byte replaced. */
  function PatchedSettings(settings: seq<byte>, autoHide: bool): seq<byte>
    requires |settings| > AutoHideIndex
  {
    settings[AutoHideIndex := AutoHideByte(autoHide)]
  }

  /** `SetTaskbarAutoHide` acts only on an existing, writable key holding a blob longer than 8 bytes. */
  predicate TaskbarPatchable(reg: Registry) {
    && StuckRectsKey in reg.keys && StuckRectsKey !in reg.denied
    && TaskbarSettings in reg.values
    && reg.values[TaskbarSettings].Binary?
    && |reg.values[TaskbarSettings].bytes| > AutoHideIndex
  }

  /** The registry after `SetTaskbarAutoHide`. */
  function TaskbarWritten(reg: Registry, autoHide: bool): Registry {
    if TaskbarPatchable(reg) then
      reg.(values := reg.values[TaskbarSettings := Binary(PatchedSettings(reg.values[TaskbarSettings].bytes, autoHide))])
    else reg
  }

  /** The registry after `SetTabletMode`: the three steps in order, the third only with `UseTaskbarAutoHide`. */
  function PostureWritten(reg: Registry, enableTabletMode: bool, useTaskbarAutoHide: bool): Registry {
    var afterShell := ShellWritten(SlateWritten(reg, enableTabletMode), enableTabletMode);
    if useTaskbarAutoHide then TaskbarWritten(afterShell, enableTabletMode) else afterShell
  }

  class TabletModeController {
    /** `UseTaskbarAutoHide` */
    var useTaskbarAutoHide: bool
    /** The machine's registry as this process sees it. */
    var registry: Registry
    /** Every `ModeChanged` event raised so far. */
    var modeChanges: seq<ModeChangedArgs>

    constructor (registry: Registry)
      ensures this.registry == registry && !useTaskbarAutoHide && modeChanges == []
    {
      this.registry := registry;
      useTaskbarAutoHide := false;
      modeChanges := [];
    }

    /** `IsTabletMode`, read live from the registry on every call. */
    predicate IsTabletMode()
      reads this
      ensures IsTabletMode() ==> ConvertibleSlateKey in registry.keys && SlateMode in registry.values
      ensures ConvertibleSlateKey in registry.keys && SlateMode in registry.values && registry.values[SlateMode] == DWord(0) ==>
        IsTabletMode()
      ensures SlateMode in registry.values && registry.values[SlateMode] == DWord(1) ==> !IsTabletMode()
    {
      TabletFlag(registry)
    }

    method SetConvertibleSlateMode(enableTabletMode: bool)
      modifies this
      ensures registry == SlateWritten(old(registry), enableTabletMode)
      ensures useTaskbarAutoHide == old(useTaskbarAutoHide) && modeChanges == old(modeChanges)
    {
      if ConvertibleSlateKey in registry.keys && ConvertibleSlateKey !in registry.denied {
        registry := registry.(values := registry.values[SlateMode := DWord(if enableTabletMode then 0 else 1)]);
      }
    }

    method SetImmersiveShellSettings(enableTabletMode: bool)
      modifies this
      ensures registry == ShellWritten(old(registry), enableTabletMode)
      ensures useTaskbarAutoHide == old(useTaskbarAutoHide) && modeChanges == old(modeChanges)
    {
      if ImmersiveShellKey !in registry.denied {
        registry := registry.(keys := registry.keys + {ImmersiveShellKey});
        var flag := if enableTabletMode then 1 else 0;
        registry := registry.(values := registry.values[ShellTabletMode := DWord(flag)]);
        registry := registry.(values := registry.values[ShellPostureTaskbar := DWord(flag)]);
      }
    }

    /** Reads the blob into a fresh array, patches byte 8 in place and writes the array back. */
    method SetTaskbarAutoHide(autoHide: bool)
      modifies this
      ensures registry == TaskbarWritten(old(registry), autoHide)
      ensures useTaskbarAutoHide == old(useTaskbarAutoHide) && modeChanges == old(modeChanges)
    {
      if StuckRectsKey in registry.keys && StuckRectsKey !in registry.denied && TaskbarSettings in registry.values {
        var stored := registry.values[TaskbarSettings];
        if stored.Binary? && |stored.bytes| > AutoHideIndex {
          var blob := stored.bytes;
          var settings := new byte[|blob|](i requires 0 <= i < |blob| => blob[i]);
          assert settings[..] == blob;
          settings[AutoHideIndex] := if autoHide then 0x03 else 0x02;
          assert settings[..] == PatchedSettings(blob, autoHide);
          registry := registry.(values := registry.values[TaskbarSettings := Binary(settings[..])]);
        }
      }
    }

    /**
     * `SetTabletMode`: write the posture, raise `ModeChanged` and return true. The steps
     * swallow their own failures; the settings broadcast runs on another thread and is not modelled.
     */
    method SetTabletMode(enableTabletMode: bool) returns (ok: bool)
      modifies this
      ensures registry == PostureWritten(old(registry), enableTabletMode, useTaskbarAutoHide)
      ensures modeChanges == old(modeChanges) + [ModeChangedArgs(!enableTabletMode)]
      ensures useTaskbarAutoHide == old(useTaskbarAutoHide)
      ensures ok
    {
      SetConvertibleSlateMode(enableTabletMode);
      SetImmersiveShellSettings(enableTabletMode);
      if useTaskbarAutoHide {
        SetTaskbarAutoHide(enableTabletMode);
      }
      modeChanges := modeChanges + [ModeChangedArgs(!enableTabletMode)];
      ok := true;
    }

    method SwitchToDesktopMode() returns (ok: bool)
      modifies this
      ensures registry == PostureWritten(old(registry), false, useTaskbarAutoHide)
      ensures modeChanges == old(modeChanges) + [ModeChangedArgs(true)]
      ensures useTaskbarAutoHide == old(useTaskbarAutoHide)
      ensures ok
    {
      ok := SetTabletMode(false);
    }

    method SwitchToTabletMode() returns (ok: bool)
      modifies this
      ensures registry == PostureWritten(old(registry), true, useTaskbarAutoHide)
      ensures modeChanges == old(modeChanges) + [ModeChangedArgs(false)]
      ensures useTaskbarAutoHide == old(useTaskbarAutoHide)
      ensures ok
    {
      ok := SetTabletMode(true);
    }
  }

  // ---- Properties of the posture store ----

  /** With a writable ConvertibleSlateMode key, `IsTabletMode` reads back what `SetTabletMode` wrote. */
  lemma SetThenReadBack(reg: Registry, enableTabletMode: bool, useTaskbarAutoHide: bool)
    requires SlateWritable(reg)
    ensures TabletFlag(PostureWritten(reg, enableTabletMode, useTaskbarAutoHide)) == enableTabletMode
    ensures SlateWritable(PostureWritten(reg, enableTabletMode, useTaskbarAutoHide))
  {
    var slate := SlateWritten(reg, enableTabletMode);
    assert slate.values[SlateMode] == DWord(SlateDWord(enableTabletMode));
    var shell := ShellWritten(slate, enableTabletMode);
    assert shell.values[SlateMode] == slate.values[SlateMode];
  }

  /** Without it, no write changes what `IsTabletMode` reads. */
  lemma UnwritableSlateKeepsMode(reg: Registry, enableTabletMode: bool, useTaskbarAutoHide: bool)
    requires !SlateWritable(reg)
    ensures TabletFlag(PostureWritten(reg, enableTabletMode, useTaskbarAutoHide)) == TabletFlag(reg)
    ensures !SlateWritable(PostureWritten(reg, enableTabletMode, useTaskbarAutoHide))
  {
    var shell := ShellWritten(reg, enableTabletMode);
    assert SlateMode in shell.values <==> SlateMode in reg.values;
    assert SlateMode in reg.values ==> shell.values[SlateMode] == reg.values[SlateMode];
  }

  /** A missing key or value reads as desktop mode; so does a value `Convert.ToInt32` rejects. */
  lemma ReadFailuresAreDesktop(reg: Registry)
    requires ConvertibleSlateKey !in reg.keys || SlateMode !in reg.values || ToInt32(reg.values[SlateMode]).None?
    ensures !TabletFlag(reg)
  {
  }

  /** A text value " 0" converts like the number and reads as tablet mode. */
  lemma PaddedTextZeroIsTablet(reg: Registry)
    requires ConvertibleSlateKey in reg.keys && SlateMode in reg.values && reg.values[SlateMode] == Text(" 0")
    ensures TabletFlag(reg)
  {
    assert TrimStart(" 0") == "0" by {
      assert " 0"[1..] == "0";
    }
    assert DigitsValue("0") == 0 by {
      assert "0"[..0] == "";
    }
  }

  /** The ImmersiveShell pair is written 1 for tablet and 0 for desktop whenever the key can be created. */
  lemma ShellValuesAfterSet(reg: Registry, enableTabletMode: bool, useTaskbarAutoHide: bool)
    requires ImmersiveShellKey !in reg.denied
    ensures var after := PostureWritten(reg, enableTabletMode, useTaskbarAutoHide);
      && after.values[ShellTabletMode] == DWord(if enableTabletMode then 1 else 0)
      && after.values[ShellPostureTaskbar] == DWord(if enableTabletMode then 1 else 0)
  {
  }

  /** The patch changes byte 8 to 0x03 or 0x02 and leaves every other byte alone. */
  lemma PatchedSettingsBytes(settings: seq<byte>, autoHide: bool)
    requires |settings| > AutoHideIndex
    ensures |PatchedSettings(settings, autoHide)| == |settings|
    ensures PatchedSettings(settings, autoHide)[AutoHideIndex] == (if autoHide then 0x03 else 0x02)
    ensures forall i :: 0 <= i < |settings| && i != AutoHideIndex ==> PatchedSettings(settings, autoHide)[i] == settings[i]
    ensures PatchedSettings(PatchedSettings(settings, autoHide), autoHide) == PatchedSettings(settings, autoHide)
  {
  }

  /** A blob of 8 bytes or fewer, or a missing or non-binary value, is never written. */
  lemma ShortSettingsUntouched(reg: Registry, autoHide: bool)
    requires TaskbarSettings !in reg.values || !reg.values[TaskbarSettings].Binary?
      || |reg.values[TaskbarSettings].bytes| <= AutoHideIndex
    ensures TaskbarWritten(reg, autoHide) == reg
  {
  }

  /** Without `UseTaskbarAutoHide` the StuckRects3 blob is never touched. */
  lemma TaskbarStepNeedsOption(reg: Registry, enableTabletMode: bool)
    ensures var after := PostureWritten(reg, enableTabletMode, false);
      (TaskbarSettings in after.values <==> TaskbarSettings in reg.values)
      && (TaskbarSettings in reg.values ==> after.values[TaskbarSettings] == reg.values[TaskbarSettings])
  {
  }

  /** `SetTabletMode` writes the four posture values and nothing else. */
  lemma PostureWritesNothingElse(reg: Registry, enableTabletMode: bool, useTaskbarAutoHide: bool, n: ValueName)
    requires n != SlateMode && n != ShellTabletMode && n != ShellPostureTaskbar && n != TaskbarSettings
    ensures var after := PostureWritten(reg, enableTabletMode, useTaskbarAutoHide);
      (n in after.values <==> n in reg.values) && (n in reg.values ==> after.values[n] == reg.values[n])
  {
  }
}

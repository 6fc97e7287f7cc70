# TabletModeSwitcher, modelled in Dafny

TabletModeSwitcher is a Windows tray program. It watches for physical keyboards and
switches the machine between the tablet and desktop postures. It counts a keyboard from
two WMI sources: Win32_Keyboard, and keyboard-like Win32_PnPEntity devices such as
Bluetooth keyboards. It switches by writing the ConvertibleSlateMode and ImmersiveShell
registry values, and optionally patches the taskbar auto-hide byte. Two settings dialogs
edit the configuration and a per-device exclusion list.

This project models five parts of the program:

- **Keyboard tracker** (`KeyboardWatching`, keyboard_watcher.dfy).
  - `KeyboardWatcher` is a class whose `connected` set is the source's case-sensitive
    `HashSet<string>`.
  - A full rescan is a `for` loop over the two WMI result lists. A rescan that throws
    stops after a given number of records (`Enumeration.failAfter`).
  - The four WMI notification handlers each return the events they raise, in order.
  - `IsVirtualKeyboard` and `IsKeyboardDevice` are predicates over records whose
    properties may be null (`Option`).
- **Posture store** (`TabletMode`, tablet_mode_controller.dfy).
  - The registry is a value: the keys that exist, a map from (key path, value name) to a
    value, and the keys that a write open refuses.
  - `TabletModeController` holds the registry and logs every `ModeChanged` event.
  - `SetTaskbarAutoHide` copies the `Settings` blob into an `array<byte>`, patches
    byte 8 in place, and writes the array back.
- **Tray** (`Tray`, tray.dfy).
  - `TrayApplicationContext` holds `_lastKeyboardCount`, the switch timer and the poll
    timer, and references to the watcher, the controller and the settings.
  - Timer ticks, watcher events and menu clicks are method calls.
  - The decision rule is the function `Decide`. Reconciliation is proved to settle after
    one run.
  - The switch timer's interval is assigned as the code does. A stored delay below 1
    makes the constructor stop (`started` is false) and makes `OpenSettingsWindow`
    report the throw; the corrected interval is in "## Findings".
- **Settings dialogs** (`SettingsWindowModel` and `SettingsFormModel`, over the shared
  helpers in `DeviceList`).
  - The list boxes, check boxes and status label are fields of each dialog class.
  - The result of `GetAllKeyboardDevices` is a parameter.
  - `AppSettings.Save()` is a boolean parameter.
- **Support modules**, which model library behaviour the core relies on:
  - `Text`: `ToLower`, ordinal `Contains`, and `OrdinalIgnoreCase` comparison.
  - `Numbers`: `int.TryParse` and `int.ToString`.
  - `Settings`: the `AppSettings` record and its defaults.

Three behaviours of the program are easy to miss. The model follows the code in each:

- **No debounce.** The switch timer is created, given an interval, stopped and disposed,
  but never started (TrayApplicationContext.cs:30, 269, 376, 430). So no delay gate is
  modelled. Instead, `TrayApplicationContext.Valid` keeps `!switchTimerEnabled` as an
  invariant. The poll tick acts only when the count changed, and the notification
  handlers run the decision rule at once.
- **The tracker does not apply the exclusion list.** `UpdateExcludedDevices` is called
  (TrayApplicationContext.cs:27, SettingsWindow.xaml.cs:45, 163), but KeyboardWatcher.cs
  defines no such method. The model records each call, and the set never depends on it. Only the dialogs apply exclusions, case-insensitively, when they list
  devices and count active ones.
- **The virtual-device rules differ.** A device is virtual if it has no id, if its id
  starts with `ROOT\` in any case, or if its name (ignoring case) contains "virtual" or
  "remote". The description is not examined, and there is no HID-node rule.
  Win32_Keyboard records are not filtered at all. A PnP creation event whose PNPClass is
  "Keyboard" skips the virtual test, while a rescan always applies it. Lemma
  `InsertAndScanDisagreeOnVirtualClassKeyboard` shows a device that the two paths
  handle differently.

## Model

| member | source | states |
|---|---|---|
| Text.Lower | KeyboardWatcher.cs:148 | lower-casing keeps the length and maps each character through ASCII case folding; no upper-case letter remains |
| Text.Contains | KeyboardWatcher.cs:149 | the ordinal `Contains` holds exactly when the word occurs at some index of the string |
| Text.EqualsIgnoreCase | KeyboardWatcher.cs:167 | two strings are equal ignoring case exactly when they have the same length and agree at every index after folding |
| Text.StartsWithIgnoreCase | KeyboardWatcher.cs:142 | a string starts with a prefix ignoring case exactly when it is at least as long and agrees with the prefix at every index after folding |
| Text.LowerIdempotent | KeyboardWatcher.cs:162-163 | lower-casing an already lower-cased name or description changes nothing |
| Numbers.ParseInt32 | SettingsWindow.xaml.cs:130 | `int.TryParse` succeeds only with a value in the 32-bit range |
| Numbers.ShowInt | SettingsWindow.xaml.cs:32 | the delay text is non-empty and has no leading or trailing white space |
| Numbers.ParseShowRoundTrip | SettingsWindow.xaml.cs:32 | parsing the text of any 32-bit integer gives that integer back |
| KeyboardWatching.KeyboardWatcher.constructor | KeyboardWatcher.cs:13-14 | a new watcher tracks nothing, has no watchers running and is not disposed |
| KeyboardWatching.KeyboardWatcher.ConnectedKeyboardCount | KeyboardWatcher.cs:23 | the count is 0 exactly when the set is empty |
| KeyboardWatching.KeyboardWatcher.HasKeyboardConnected | KeyboardWatcher.cs:28 | true exactly when the count is positive |
| KeyboardWatching.KeyboardWatcher.UpdateExcludedDevices | TrayApplicationContext.cs:27 | the call is recorded and the tracked set and watcher state do not change |
| KeyboardWatching.KeyboardWatcher.ScanExistingKeyboards | KeyboardWatcher.cs:86-132 | the old contents are discarded; the set becomes the ids the two loops add before any throw; one `KeyboardCountChanged` with the final size is raised even after a throw |
| KeyboardWatching.KeyboardWatcher.Start | KeyboardWatcher.cs:33-81 | scans, then the keyboard watchers run and the PnP watchers run only if they could be started |
| KeyboardWatching.KeyboardWatcher.OnDeviceInserted | KeyboardWatcher.cs:187-208 | a non-empty id that is not tracked is added, and `KeyboardConnected` (description or "Unknown") is raised, then `KeyboardCountChanged` with the new size; otherwise nothing changes and no event is raised |
| KeyboardWatching.KeyboardWatcher.OnDeviceRemoved | KeyboardWatcher.cs:210-230 | a tracked non-empty id is removed, and `KeyboardDisconnected` then `KeyboardCountChanged` are raised; otherwise nothing changes and nothing is raised |
| KeyboardWatching.KeyboardWatcher.OnPnPDeviceInserted | KeyboardWatcher.cs:232-257 | as the Win32 insert handler, but only for a device `IsKeyboardDevice` accepts, and the event carries the name |
| KeyboardWatching.KeyboardWatcher.OnPnPDeviceRemoved | KeyboardWatcher.cs:259-279 | removes any tracked id without re-checking the device class, raising the two events only on an actual removal |
| KeyboardWatching.KeyboardWatcher.Stop | KeyboardWatcher.cs:284-290 | all four watchers are stopped and the set is untouched |
| KeyboardWatching.KeyboardWatcher.Dispose | KeyboardWatcher.cs:292-303 | the first call stops the watchers and marks the object disposed; a second call changes nothing |
| KeyboardWatching.KeyboardIdsMembers | KeyboardWatcher.cs:94-103 | an id is added by the Win32_Keyboard loop exactly when some record carries it and it is non-empty; no virtual filter applies |
| KeyboardWatching.PnpIdsMembers | KeyboardWatcher.cs:111-124 | an id is added by the PnP loop exactly when some record carries it, it is non-empty and the record is not virtual |
| KeyboardWatching.CompleteScanContents | KeyboardWatcher.cs:88-124 | after a scan that does not throw, an id is tracked exactly when it is a non-empty keyboard id or a non-empty, non-virtual PnP id |
| KeyboardWatching.KeyboardIdsPrefix | KeyboardWatcher.cs:94-103 | the ids from a prefix of the keyboard records are among the ids from all of them |
| KeyboardWatching.PnpIdsPrefix | KeyboardWatcher.cs:111-124 | the ids from a prefix of the PnP records are among the ids from all of them |
| KeyboardWatching.FailedScanIsPartial | KeyboardWatcher.cs:88-129 | a scan that throws leaves a subset of what the complete scan would have found |
| KeyboardWatching.ScanFailingAtOnceIsEmpty | KeyboardWatcher.cs:88-131 | a throw before the first record leaves the set empty, since it was cleared first |
| KeyboardWatching.LateFailureIsHarmless | KeyboardWatcher.cs:90-129 | a throw after the last record gives the same set as no throw |
| KeyboardWatching.IsVirtualKeyboard | KeyboardWatcher.cs:137-154 | a device without an id is virtual; so is one whose id starts with `ROOT\` in any letter case, whatever the name; any other is virtual exactly when it has a name whose lowered form contains "virtual" or "remote" |
| KeyboardWatching.VirtualIgnoresNameCase | KeyboardWatcher.cs:148 | the virtual test gives the same answer for a name and its lower-cased form |
| KeyboardWatching.IsKeyboardDevice | KeyboardWatcher.cs:159-185 | PNPClass "Keyboard" in any case is always accepted; an accepted device either has that class or mentions "keyboard" or "键盘" in its lowered name or description, so an id alone (the empty HID `VID_`/`PID_` branch) never accepts |
| KeyboardWatching.KeyboardDeviceCases | KeyboardWatcher.cs:159-185 | without PNPClass "Keyboard" a device is accepted exactly when its name or description mentions "keyboard" or "键盘" and it is not virtual |
| KeyboardWatching.InsertAndScanDisagreeOnVirtualClassKeyboard | KeyboardWatcher.cs:166-168 | a "Remote Desktop Keyboard" of class Keyboard is accepted by a creation event but left out by a rescan |
| TabletMode.TabletModeController.constructor | TabletModeController.cs:32 | a new controller has `UseTaskbarAutoHide` off and has raised no event |
| TabletMode.ToInt32 | TabletModeController.cs:46 | `Convert.ToInt32` keeps a DWORD, keeps a QWORD only inside 32 bits, gives a 32-bit value or nothing for text, and rejects binary data |
| TabletMode.TabletModeController.IsTabletMode | TabletModeController.cs:37-51 | tablet mode needs the key and the value to exist; a DWORD 0 reads as tablet and a DWORD 1 as desktop |
| TabletMode.TabletModeController.SetConvertibleSlateMode | TabletModeController.cs:95-106 | writes DWORD 0 for tablet and 1 for desktop when the key opens for writing; otherwise the registry is unchanged |
| TabletMode.TabletModeController.SetImmersiveShellSettings | TabletModeController.cs:108-123 | creates the ImmersiveShell key if needed and writes both values 1 for tablet and 0 for desktop, unless the key cannot be created |
| TabletMode.TabletModeController.SetTaskbarAutoHide | TabletModeController.cs:144-161 | an existing binary blob longer than 8 bytes gets byte 8 set to 0x03 or 0x02 in place and is written back; anything else is left alone |
| TabletMode.TabletModeController.SetTabletMode | TabletModeController.cs:66-93 | performs the three steps in order, the taskbar step only with `UseTaskbarAutoHide`, raises `ModeChanged(!enable)` and returns true |
| TabletMode.TabletModeController.SwitchToDesktopMode | TabletModeController.cs:56 | is `SetTabletMode(false)` |
| TabletMode.TabletModeController.SwitchToTabletMode | TabletModeController.cs:61 | is `SetTabletMode(true)` |
| TabletMode.SetThenReadBack | TabletModeController.cs:99-100 | with a writable slate key, `IsTabletMode` after `SetTabletMode(b)` reads b, and the key stays writable |
| TabletMode.UnwritableSlateKeepsMode | TabletModeController.cs:97-105 | without a writable slate key, `SetTabletMode` never changes what `IsTabletMode` reads |
| TabletMode.ReadFailuresAreDesktop | TabletModeController.cs:37-51 | a missing key, a missing value or a value `Convert.ToInt32` rejects reads as desktop mode |
| TabletMode.PaddedTextZeroIsTablet | TabletModeController.cs:46 | a text value " 0" converts to 0 and reads as tablet mode |
| TabletMode.ShellValuesAfterSet | TabletModeController.cs:112-116 | after `SetTabletMode`, both ImmersiveShell values are 1 for tablet and 0 for desktop whenever the key can be created |
| TabletMode.PatchedSettingsBytes | TabletModeController.cs:152-157 | the patch keeps the length, sets byte 8 to 0x03 or 0x02, leaves every other byte, and is idempotent |
| TabletMode.ShortSettingsUntouched | TabletModeController.cs:152-153 | a missing, non-binary or too short blob is not written |
| TabletMode.TaskbarStepNeedsOption | TabletModeController.cs:77-80 | without `UseTaskbarAutoHide` the StuckRects3 blob is never touched |
| TabletMode.PostureWritesNothingElse | TabletModeController.cs:66-93 | `SetTabletMode` changes no registry value other than the four posture values |
| Settings.AppSettings.constructor | AppSettings.cs:13-43 | the defaults: no autostart, auto-switch on, 500 ms delay, start minimized, notifications on, no taskbar auto-hide, an empty exclusion list |
| DeviceList.BuildExcludedIds | SettingsWindow.xaml.cs:85-89 | the `OrdinalIgnoreCase` set built from the list box is the set of case-folded entries |
| DeviceList.FoldedIdsMembers | SettingsWindow.xaml.cs:56-65 | an id is excluded exactly when some list entry equals it ignoring case |
| DeviceList.VisibleItems | SettingsWindow.xaml.cs:63-75 | the list never has more rows than there are devices, and no row carries an excluded id |
| DeviceList.ActiveCount | SettingsWindow.xaml.cs:91 | the active count is at most the device total, and 0 when every device is filtered |
| DeviceList.AddExclusion | SettingsWindow.xaml.cs:105-106 | afterwards the id is in the list; the old list is kept as a prefix, with one entry more exactly when the id was absent |
| DeviceList.RemoveFirst | SettingsWindow.xaml.cs:122 | removal never lengthens the list and never introduces an entry |
| DeviceList.VisibleItemsAppend | SettingsWindow.xaml.cs:63-75 | the device list is a filter that keeps input order across any split of the input |
| DeviceList.VisibleItemsMembers | SettingsWindow.xaml.cs:63-75 | a row is shown exactly when it is the row of some non-excluded device, filtered devices carrying the "[系统] " tag |
| DeviceList.ActiveCountIsUntaggedRows | SettingsWindow.xaml.cs:91-92 | the active count equals the number of untagged rows and is at most the device total |
| DeviceList.AddExclusionDistinct | SettingsWindow.xaml.cs:105-108 | adding to a list without duplicates leaves it without duplicates |
| DeviceList.AddedDeviceIsHidden | SettingsWindow.xaml.cs:101-110 | after adding an id, no row of the refreshed list equals it ignoring case |
| DeviceList.RemoveFirstDropsOne | SettingsWindow.xaml.cs:122 | removing a present entry drops exactly one occurrence; removing an absent one changes nothing |
| DeviceList.RemoveFirstFromDistinct | SettingsWindow.xaml.cs:122 | in a list without duplicates the removed entry is gone and no entry repeats |
| SettingsWindowModel.ValidateDelay | SettingsWindow.xaml.cs:130 | accepts exactly the texts `int.TryParse` reads as a value in [0, 10000], and gives that value |
| SettingsWindowModel.LoadedDelayAccepted | SettingsWindow.xaml.cs:130-135 | a loaded delay in [0, 10000], saved unedited, passes the check with its own value |
| SettingsWindowModel.LoadedDelayOutOfRangeRejected | SettingsWindow.xaml.cs:130-135 | a loaded 32-bit delay outside [0, 10000], saved unedited, is rejected |
| SettingsWindowModel.DelayTextExamples | SettingsWindow.xaml.cs:130 | " +250 " is accepted as 250 and "abc" is rejected |
| SettingsWindowModel.SettingsWindow.constructor | SettingsWindow.xaml.cs:14-23 | loads the settings, then rescans and fills the list and status; the watcher's running and disposed state is kept |
| SettingsWindowModel.SettingsWindow.LoadSettings | SettingsWindow.xaml.cs:25-48 | the controls take the settings; a null list loads as empty and is handed to the watcher as an empty list; the tracked set and the watcher's running and disposed state are kept |
| SettingsWindowModel.SettingsWindow.RefreshKeyboardList | SettingsWindow.xaml.cs:50-78 | rescans; the list becomes the non-excluded devices in order; the status is recomputed; the other controls and the watcher's running and disposed state are kept |
| SettingsWindowModel.SettingsWindow.UpdateStatus | SettingsWindow.xaml.cs:80-94 | the status holds the live mode, the devices neither filtered nor excluded, and the device total |
| SettingsWindowModel.SettingsWindow.OnAddExcludeClick | SettingsWindow.xaml.cs:101-116 | with a selection, the id is appended only if absent and the list refreshed only then; without one only a hint is shown; the check boxes, the delay and the watcher's running state are kept |
| SettingsWindowModel.SettingsWindow.OnRemoveExcludeClick | SettingsWindow.xaml.cs:118-125 | with a selection that entry is removed and the list refreshed; without one nothing changes; the check boxes, the delay and the watcher's running state are kept |
| SettingsWindowModel.SettingsWindow.OnSaveClick | SettingsWindow.xaml.cs:127-170 | a bad delay changes no setting; otherwise the settings take the controls and the list in order; only a successful save updates the watcher, sets `SavedSuccessfully` and closes; the controls, the status and the tracked set are kept |
| SettingsWindowModel.SettingsWindow.OnCancelClick | SettingsWindow.xaml.cs:172-176 | closes with `SavedSuccessfully` false; every control keeps its value |
| SettingsFormModel.Clamp | SettingsForm.cs:311 | the result lies in [lo, hi] and equals the value when the value is in range |
| SettingsFormModel.ClampIsNearest | SettingsForm.cs:311 | no point of the range is nearer the value than the clamped one, and clamping is idempotent |
| SettingsFormModel.ReopenedDelayIsClamped | SettingsForm.cs:133-134 | delays of 8000 and -1 load as 5000 and 0 |
| SettingsFormModel.SettingsForm.constructor | SettingsForm.cs:28-37 | loads the settings, then rescans and fills the list and status; the watcher's running and disposed state is kept |
| SettingsFormModel.SettingsForm.LoadSettings | SettingsForm.cs:304-324 | the controls take the settings, the delay clamped to [0, 5000]; the settings' own list goes to the watcher; the tracked set and the watcher's running and disposed state are kept |
| SettingsFormModel.SettingsForm.RefreshKeyboardList | SettingsForm.cs:326-354 | rescans; the list becomes the non-excluded devices in order; the status is recomputed; the other controls and the watcher's running and disposed state are kept |
| SettingsFormModel.SettingsForm.UpdateStatus | SettingsForm.cs:356-371 | the status holds the live mode, the devices neither filtered nor excluded, and the device total |
| SettingsFormModel.SettingsForm.OnAddExcludeClick | SettingsForm.cs:378-393 | with a selection, the id is appended only if absent and the list refreshed only then; without one only a hint is shown; the check boxes, the delay and the watcher's running state are kept |
| SettingsFormModel.SettingsForm.OnRemoveExcludeClick | SettingsForm.cs:395-403 | with a selection that entry is removed and the list refreshed; without one nothing changes; the check boxes, the delay and the watcher's running state are kept |
| SettingsFormModel.SettingsForm.OnSaveClick | SettingsForm.cs:405-440 | the settings take the controls, and the stored list is cleared and refilled in order; a failed save returns without touching the watcher or `DialogResult`; the controls, the status and the tracked set are kept |
| SettingsFormModel.SettingsForm.OnCancelClick | SettingsForm.cs:442-446 | closes with `DialogResult.Cancel`; every control keeps its value |
| Tray.Decide | TrayApplicationContext.cs:297-315 | a switch always goes to the posture the count calls for (tablet exactly when no keyboard), and none is made exactly when the mode already matches |
| Tray.DecisionSettles | TrayApplicationContext.cs:297-315 | with a controller that reads back its writes, one run leaves tablet mode on exactly when the count is 0, raises at most one event, and a second run makes no switch |
| Tray.UnwritableSlateSwitchesAgain | TrayApplicationContext.cs:297-315 | when the slate value cannot be written, the mode never changes and every later run repeats the same switch |
| Tray.StartupAgreesWithDecision | TrayApplicationContext.cs:61-71 | the unconditional startup switch always raises one event and lands where the decision rule would |
| Tray.IntervalAsWritten | TrayApplicationContext.cs:30 | the timer accepts an interval exactly when it is at least 1 |
| Tray.ZeroDelayBreaksTimer | TrayApplicationContext.cs:30 | a delay of 0 passes both dialogs but the timer rejects it |
| Tray.SwitchTimerInterval | TrayApplicationContext.cs:30 | the corrected interval is at least 1, equals the delay whenever the delay is at least 1, and is always accepted by the timer |
| Tray.SavedDelaysAreAccepted | TrayApplicationContext.cs:376 | every delay either dialog can save gives an interval the timer accepts |
| Tray.TrayApplicationContext.constructor | TrayApplicationContext.cs:19-78 | the new controller takes the taskbar option and the watcher is told the exclusions; a stored delay below 1 stops startup there, with nothing scanned, started or switched; otherwise the switch timer takes the delay, the watcher is started, the recorded count is the post-start count, with auto-switch on it switches unconditionally, and the poll timer runs while the switch timer does not |
| Tray.TrayApplicationContext.SwitchModeBasedOnKeyboardState | TrayApplicationContext.cs:297-315 | exactly the switch `Decide` picks from the count and the live mode is made, at most one |
| Tray.TrayApplicationContext.OnKeyboardConnected | TrayApplicationContext.cs:242-250 | with auto-switch on, records the count and runs the decision rule; with it off nothing changes |
| Tray.TrayApplicationContext.OnKeyboardDisconnected | TrayApplicationContext.cs:252-265 | with auto-switch on, records the count and runs the decision only when no keyboard is left |
| Tray.TrayApplicationContext.OnSwitchTimerTick | TrayApplicationContext.cs:267-271 | the timer is stopped and the decision runs once |
| Tray.TrayApplicationContext.OnPollTimerTick | TrayApplicationContext.cs:276-292 | with auto-switch off nothing happens; otherwise rescans, records the count, and switches only when the count differs from the recorded one |
| Tray.TrayApplicationContext.OnRescanClick | TrayApplicationContext.cs:176-188 | always rescans, runs the decision only with auto-switch on, and leaves the recorded count alone |
| Tray.TrayApplicationContext.DeviceInserted | TrayApplicationContext.cs:49-50 | a keyboard-creation event that adds an id reaches `OnKeyboardConnected`; one that adds nothing changes nothing; the timers, the taskbar option, the watcher's running state and its exclusion calls are kept |
| Tray.TrayApplicationContext.PnPDeviceInserted | TrayApplicationContext.cs:49-50 | the same for a PnP creation event accepted by `IsKeyboardDevice`; the timers, the taskbar option, the watcher's running state and its exclusion calls are kept |
| Tray.TrayApplicationContext.DeviceRemoved | TrayApplicationContext.cs:49-50 | a keyboard-deletion event that removes an id reaches `OnKeyboardDisconnected`, which switches only once none is left; the timers, the taskbar option, the watcher's running state and its exclusion calls are kept |
| Tray.TrayApplicationContext.PnPDeviceRemoved | TrayApplicationContext.cs:49-50 | the same for a PnP deletion event; the timers, the taskbar option, the watcher's running state and its exclusion calls are kept |
| Tray.TrayApplicationContext.OnDesktopModeClick | TrayApplicationContext.cs:116-119 | an unconditional switch to desktop |
| Tray.TrayApplicationContext.OnTabletModeClick | TrayApplicationContext.cs:122-125 | an unconditional switch to tablet |
| Tray.TrayApplicationContext.OnAutoSwitchToggled | TrayApplicationContext.cs:137-141 | the flag takes the menu state whatever the save returns; every other setting is kept |
| Tray.TrayApplicationContext.OpenSettingsWindow | TrayApplicationContext.cs:358-396 | the settings are reloaded; the dialog hands the watcher its loaded list, rescans it and, after a successful save, hands it the saved list; after a successful save the timer takes the delay and then the taskbar option is applied, unless the delay is below 1, where the assignment throws and neither changes; the recorded count is not updated |
| Tray.TrayApplicationContext.Dispose | TrayApplicationContext.cs:425-435 | both timers stop and the watcher is disposed; the settings, the tracked set and the exclusion calls are kept |

## Left out

- WMI queries and event watchers: their results are given sequences (`Enumeration`, `DeviceRecord`). The WQL `WHERE` clause of the PnP query is assumed already applied to the given PnP list.
- The settings broadcast (`SendMessageTimeout` on a background task) and `RestartExplorer` are foreign calls and threads, so they are not modelled.
- Concurrency: WMI events arrive on worker threads, and the code has no locking. Every handler is a plain, atomic method call.
- Settings persistence: `AppSettings.Load` and `Save` use the file system and JSON. A loaded object is a parameter and `Save()` is a boolean parameter.
- Program.cs, the three `SetStartupRegistry` copies, the tray icon, the balloon notifications, `UpdateTrayIconText`, `OnKeyboardCountChanged`, `OnModeChanged` and the dialog layout are UI or process plumbing.
- `UpdateExcludedDevices` and `GetAllKeyboardDevices`: the tray and the dialogs call them, but KeyboardWatcher.cs defines neither. The first is recorded in `KeyboardWatcher.exclusionUpdates` and has no effect on the set. The second's result is the `devices` parameter of the dialog methods, the same list for every call within one handler.
- `KeyboardEventArgs` and `TabletModeChangedEventArgs` timestamps come from the clock and are left out.
- Text.Lower: folds ASCII letters only. `ToLower()` at KeyboardWatcher.cs:148 and 162-163 uses the current culture, so under tr-TR "VIRTUAL KEYBOARD" lowers to "vırtual keyboard" and is not found virtual there, while the model finds it virtual. Non-ASCII letters are not folded either: the Kelvin sign U+212A lowers to 'k' in .NET and is kept as is here. `OrdinalIgnoreCase` also folds other alphabets.
- Numbers.ParseInt32: accepts the NumberStyles.Integer form with ASCII digits only. Culture-specific signs and digits are not modelled.
- TabletMode.TabletModeController.SetImmersiveShellSettings: a failure of an individual `SetValue` after a successful `CreateSubKey` is not modelled. A key that can be created is always written in full.
- SettingsWindowModel.SettingsWindow.OnSaveClick, SettingsWindowModel.SettingsWindow.LoadSettings: list entries are never null (`item != null` always holds). The settings object does not alias the list-box contents.
- SettingsFormModel.SettingsForm.constructor, SettingsFormModel.SettingsForm.LoadSettings, SettingsFormModel.SettingsForm.OnSaveClick: these require a non-null exclusion list, because the source dereferences it and throws a NullReferenceException otherwise.
- SettingsFormModel.SettingsForm.OnSaveClick: the numeric box holds integers. `(int)` truncation of a fractional `decimal` value is not modelled.
- Tray.TrayApplicationContext.OpenSettingsWindow: the dialog session is given by its effect on the shared objects, not replayed: the reloaded settings as the dialog left them, the list it loaded, its last rescan and whether the save succeeded are parameters. The dialog itself is modelled in `SettingsWindowModel`. Activating an already open window is a UI detail.
- Tray.TrayApplicationContext.constructor: the exception at TrayApplicationContext.cs:30 ends the process, because it escapes `Application.Run` (Program.cs:37). The model returns an object with `started` false and stops there; the end of the process is not modelled.
- Tray.TrayApplicationContext.DeviceInserted, Tray.TrayApplicationContext.PnPDeviceInserted, Tray.TrayApplicationContext.DeviceRemoved, Tray.TrayApplicationContext.PnPDeviceRemoved: these deliver the `KeyboardConnected` and `KeyboardDisconnected` events only. `KeyboardCountChanged` only refreshes the tray text.

## Findings

| source | as written | input that shows it | evidently intended | confidence | as-written member | corrected member |
|---|---|---|---|---|---|---|
| TrayApplicationContext.cs:30 | the switch timer's `Interval` is set to `SwitchDelayMs` with no lower bound, here and again at line 376; Windows Forms rejects an interval below 1 with an exception | a saved delay of 0, which SettingsWindow.xaml.cs:130 and SettingsForm.cs:133 both accept; the next start, or the return from a successful save, throws | a delay of 0 means "no delay", so the timer should get the shortest interval it accepts | not executed; high, from the documented range of `Timer.Interval` | Tray.IntervalAsWritten, Tray.ZeroDelayBreaksTimer | Tray.SwitchTimerInterval, Tray.SavedDelaysAreAccepted |

/**
 * The Windows Forms settings dialog. It edits the same settings as the WPF window,
 * but its delay control is a numeric box limited to [0, 5000], and on save it refills
 * the settings' own exclusion list in place.
 */
module SettingsFormModel {
  import opened Wrappers
  import opened KeyboardWatching
  import opened TabletMode
  import opened Settings
  import opened DeviceList

  const MinSwitchDelayMs: int := 0
  const MaxSwitchDelayMs: int := 5000

  function Abs(x: int): nat {
    if x < 0 then 0 - x else x
  }

  /** `Math.Clamp(value, lo, hi)`: the point of [lo, hi] nearest to the value. */
  function Clamp(value: int, lo: int, hi: int): (r: int)
    requires lo <= hi
    ensures lo <= r <= hi
    ensures lo <= value <= hi ==> r == value
  {
    if value < lo then lo else if value > hi then hi else value
  }

  /** No point of the range is nearer to the value than the clamped one; clamping twice is clamping once. */
  lemma ClampIsNearest(value: int, lo: int, hi: int, x: int)
    requires lo <= hi && lo <= x <= hi
    ensures Abs(Clamp(value, lo, hi) - value) <= Abs(x - value)
    ensures Clamp(Clamp(value, lo, hi), lo, hi) == Clamp(value, lo, hi)
  {
  }

  /**
   * Opening this dialog and saving without touching the delay writes back the clamped
   * value, so a delay of 8000 that the WPF window accepts comes back as 5000.
   */
  lemma ReopenedDelayIsClamped()
    ensures Clamp(8000, MinSwitchDelayMs, MaxSwitchDelayMs) == MaxSwitchDelayMs
    ensures Clamp(-1, MinSwitchDelayMs, MaxSwitchDelayMs) == MinSwitchDelayMs
  {
  }

  /** `DialogResult` of the form, as far as it is set here. */
  datatype DialogResult = NoResult | OK | Cancel

  class SettingsForm {
    const settings: AppSettings
    const watcher: KeyboardWatcher
    const controller: TabletModeController

    var dialogResult: DialogResult
    var closed: bool

    var autoSwitchChecked: bool
    var showNotificationsChecked: bool
    var runAtStartupChecked: bool
    var startMinimizedChecked: bool
    var useTaskbarAutoHideChecked: bool
    /** `_numSwitchDelay.Value` */
    var switchDelay: int
    var excluded: seq<string>
    var keyboards: seq<ListItem>
    var status: Status

    /** The numeric box never holds a value outside its range. */
    predicate Valid()
      reads this
    {
      MinSwitchDelayMs <= switchDelay <= MaxSwitchDelayMs
    }

    /** Build the form: a null exclusion list makes `LoadSettings` throw, so callers must supply one. */
    constructor (settings: AppSettings, watcher: KeyboardWatcher, controller: TabletModeController,
                 e: Enumeration, devices: seq<DeviceEntry>)
      requires settings.excludedDeviceIds.Some?
      modifies watcher
      ensures Valid()
      ensures this.settings == settings && this.watcher == watcher && this.controller == controller
      ensures dialogResult == NoResult && !closed
      ensures autoSwitchChecked == settings.autoSwitchEnabled && showNotificationsChecked == settings.showNotifications
      ensures runAtStartupChecked == settings.runAtStartup && startMinimizedChecked == settings.startMinimized
      ensures useTaskbarAutoHideChecked == settings.useTaskbarAutoHide
      ensures switchDelay == Clamp(settings.switchDelayMs, MinSwitchDelayMs, MaxSwitchDelayMs)
      ensures excluded == settings.excludedDeviceIds.value
      ensures watcher.exclusionUpdates == old(watcher.exclusionUpdates) + [settings.excludedDeviceIds]
      ensures watcher.connected == ScanOutcome(e.keyboards, e.pnp, e.failAfter)
      ensures keyboards == VisibleItems(devices, FoldedIds(excluded))
      ensures status == StatusFor(controller.IsTabletMode(), devices, excluded)
      ensures watcher.listening == old(watcher.listening) && watcher.pnpListening == old(watcher.pnpListening)
      ensures watcher.disposed == old(watcher.disposed)
    {
      this.settings := settings;
      this.watcher := watcher;
      this.controller := controller;
      dialogResult := NoResult;
      closed := false;
      autoSwitchChecked := false;
      showNotificationsChecked := false;
      runAtStartupChecked := false;
      startMinimizedChecked := false;
      useTaskbarAutoHideChecked := false;
      switchDelay := 500;
      excluded := [];
      keyboards := [];
      status := Status(false, 0, 0);
      new;
      LoadSettings(devices);
      RefreshKeyboardList(e, devices);
    }

    /** `LoadSettings`: the delay is clamped into the box's range before it is shown. */
    method LoadSettings(devices: seq<DeviceEntry>)
      requires settings.excludedDeviceIds.Some?
      modifies this, watcher
      ensures Valid()
      ensures autoSwitchChecked == settings.autoSwitchEnabled && showNotificationsChecked == settings.showNotifications
      ensures runAtStartupChecked == settings.runAtStartup && startMinimizedChecked == settings.startMinimized
      ensures useTaskbarAutoHideChecked == settings.useTaskbarAutoHide
      ensures switchDelay == Clamp(settings.switchDelayMs, MinSwitchDelayMs, MaxSwitchDelayMs)
      ensures excluded == settings.excludedDeviceIds.value
      ensures watcher.exclusionUpdates == old(watcher.exclusionUpdates) + [settings.excludedDeviceIds]
      ensures watcher.connected == old(watcher.connected)
      ensures status == StatusFor(controller.IsTabletMode(), devices, excluded)
      ensures watcher.listening == old(watcher.listening) && watcher.pnpListening == old(watcher.pnpListening)
      ensures watcher.disposed == old(watcher.disposed)
      ensures keyboards == old(keyboards) && dialogResult == old(dialogResult) && closed == old(closed)
    {
      autoSwitchChecked := settings.autoSwitchEnabled;
      showNotificationsChecked := settings.showNotifications;
      runAtStartupChecked := settings.runAtStartup;
      startMinimizedChecked := settings.startMinimized;
      useTaskbarAutoHideChecked := settings.useTaskbarAutoHide;
      switchDelay := Clamp(settings.switchDelayMs, MinSwitchDelayMs, MaxSwitchDelayMs);

      var stored := settings.excludedDeviceIds.value;
      var items: seq<string> := [];
      for i := 0 to |stored|
        invariant items == stored[..i]
      {
        items := items + [stored[i]];
      }
      assert stored[..|stored|] == stored;
      excluded := items;

      watcher.UpdateExcludedDevices(settings.excludedDeviceIds);
      UpdateStatus(devices);
    }

    /** `RefreshKeyboardList`: rescan, then list every device whose id is not excluded, ignoring case. */
    method RefreshKeyboardList(e: Enumeration, devices: seq<DeviceEntry>)
      modifies this, watcher
      ensures watcher.connected == ScanOutcome(e.keyboards, e.pnp, e.failAfter)
      ensures watcher.exclusionUpdates == old(watcher.exclusionUpdates)
      ensures watcher.listening == old(watcher.listening) && watcher.pnpListening == old(watcher.pnpListening)
      ensures watcher.disposed == old(watcher.disposed)
      ensures keyboards == VisibleItems(devices, FoldedIds(excluded))
      ensures status == StatusFor(controller.IsTabletMode(), devices, excluded)
      ensures excluded == old(excluded) && switchDelay == old(switchDelay)
      ensures dialogResult == old(dialogResult) && closed == old(closed)
      ensures autoSwitchChecked == old(autoSwitchChecked) && showNotificationsChecked == old(showNotificationsChecked)
      ensures runAtStartupChecked == old(runAtStartupChecked) && startMinimizedChecked == old(startMinimizedChecked)
      ensures useTaskbarAutoHideChecked == old(useTaskbarAutoHideChecked)
    {
      var _ := watcher.ScanExistingKeyboards(e.keyboards, e.pnp, e.failAfter);
      var excludedIds := BuildExcludedIds(excluded);
      var items: seq<ListItem> := [];
      for i := 0 to |devices|
        invariant items == VisibleItems(devices[..i], excludedIds)
      {
        assert devices[..i + 1][..i] == devices[..i];
        var d := devices[i];
        if !IsExcluded(excludedIds, d.deviceId) {
          items := items + [ItemFor(d)];
        }
      }
      assert devices[..|devices|] == devices;
      keyboards := items;
      UpdateStatus(devices);
    }

    /** `UpdateStatus`: the mode read live, the active count and the device total. */
    method UpdateStatus(devices: seq<DeviceEntry>)
      modifies this
      ensures status == StatusFor(controller.IsTabletMode(), devices, excluded)
      ensures keyboards == old(keyboards) && excluded == old(excluded) && switchDelay == old(switchDelay)
      ensures dialogResult == old(dialogResult) && closed == old(closed)
      ensures autoSwitchChecked == old(autoSwitchChecked) && showNotificationsChecked == old(showNotificationsChecked)
      ensures runAtStartupChecked == old(runAtStartupChecked) && startMinimizedChecked == old(startMinimizedChecked)
      ensures useTaskbarAutoHideChecked == old(useTaskbarAutoHideChecked)
    {
      var mode := controller.IsTabletMode();
      var excludedIds := BuildExcludedIds(excluded);
      status := Status(mode, ActiveCount(devices, excludedIds), |devices|);
    }

    /** The add-to-exclusion button; without a selected row only a hint is shown. */
    method OnAddExcludeClick(selection: Option<nat>, e: Enumeration, devices: seq<DeviceEntry>) returns (prompted: bool)
      requires selection.Some? ==> selection.value < |keyboards|
      modifies this, watcher
      ensures prompted <==> selection.None?
      ensures selection.Some? ==> excluded == AddExclusion(old(excluded), old(keyboards)[selection.value].deviceId)
      ensures excluded != old(excluded) ==>
        watcher.connected == ScanOutcome(e.keyboards, e.pnp, e.failAfter)
        && keyboards == VisibleItems(devices, FoldedIds(excluded))
        && status == StatusFor(controller.IsTabletMode(), devices, excluded)
      ensures excluded == old(excluded) ==>
        keyboards == old(keyboards) && status == old(status) && watcher.connected == old(watcher.connected)
      ensures watcher.exclusionUpdates == old(watcher.exclusionUpdates)
      ensures switchDelay == old(switchDelay) && dialogResult == old(dialogResult) && closed == old(closed)
      ensures watcher.listening == old(watcher.listening) && watcher.pnpListening == old(watcher.pnpListening)
      ensures watcher.disposed == old(watcher.disposed)
      ensures autoSwitchChecked == old(autoSwitchChecked) && showNotificationsChecked == old(showNotificationsChecked)
      ensures runAtStartupChecked == old(runAtStartupChecked) && startMinimizedChecked == old(startMinimizedChecked)
      ensures useTaskbarAutoHideChecked == old(useTaskbarAutoHideChecked)
    {
      if selection.Some? {
        prompted := false;
        var id := keyboards[selection.value].deviceId;
        if id !in excluded {
          excluded := excluded + [id];
          RefreshKeyboardList(e, devices);
        }
      } else {
        prompted := true;
      }
    }

    /** The remove-exclusion button; `selection` is the index of the selected exclusion entry, if any. */
    method OnRemoveExcludeClick(selection: Option<nat>, e: Enumeration, devices: seq<DeviceEntry>)
      requires selection.Some? ==> selection.value < |excluded|
      modifies this, watcher
      ensures selection.Some? ==>
        excluded == RemoveFirst(old(excluded), old(excluded)[selection.value])
        && watcher.connected == ScanOutcome(e.keyboards, e.pnp, e.failAfter)
        && keyboards == VisibleItems(devices, FoldedIds(excluded))
        && status == StatusFor(controller.IsTabletMode(), devices, excluded)
      ensures selection.None? ==>
        excluded == old(excluded) && keyboards == old(keyboards) && status == old(status)
        && watcher.connected == old(watcher.connected)
      ensures watcher.exclusionUpdates == old(watcher.exclusionUpdates)
      ensures switchDelay == old(switchDelay) && dialogResult == old(dialogResult) && closed == old(closed)
      ensures watcher.listening == old(watcher.listening) && watcher.pnpListening == old(watcher.pnpListening)
      ensures watcher.disposed == old(watcher.disposed)
      ensures autoSwitchChecked == old(autoSwitchChecked) && showNotificationsChecked == old(showNotificationsChecked)
      ensures runAtStartupChecked == old(runAtStartupChecked) && startMinimizedChecked == old(startMinimizedChecked)
      ensures useTaskbarAutoHideChecked == old(useTaskbarAutoHideChecked)
    {
      if selection.Some? {
        excluded := RemoveFirst(excluded, excluded[selection.value]);
        RefreshKeyboardList(e, devices);
      }
    }

    /**
     * The save button. The controls are written to the settings first, the stored list is
     * emptied and refilled from the list box, then the save is attempted; `saveSucceeds`
     * is what `AppSettings.Save()` returns. Only a successful save updates the watcher and
     * closes with OK; a failed one leaves the settings object already changed.
     */
    method OnSaveClick(saveSucceeds: bool) returns (saved: bool)
      requires Valid()
      requires settings.excludedDeviceIds.Some?
      modifies this, settings, watcher
      ensures Valid()
      ensures saved == saveSucceeds
      ensures settings.autoSwitchEnabled == autoSwitchChecked
      ensures settings.showNotifications == showNotificationsChecked
      ensures settings.runAtStartup == runAtStartupChecked
      ensures settings.startMinimized == startMinimizedChecked
      ensures settings.useTaskbarAutoHide == useTaskbarAutoHideChecked
      ensures settings.switchDelayMs == switchDelay
      ensures settings.excludedDeviceIds == Some(excluded)
      ensures saved ==> dialogResult == OK && closed && watcher.exclusionUpdates == old(watcher.exclusionUpdates) + [Some(excluded)]
      ensures !saved ==> dialogResult == old(dialogResult) && closed == old(closed) && watcher.exclusionUpdates == old(watcher.exclusionUpdates)
      ensures watcher.connected == old(watcher.connected)
      ensures excluded == old(excluded) && keyboards == old(keyboards) && switchDelay == old(switchDelay)
      ensures autoSwitchChecked == old(autoSwitchChecked) && showNotificationsChecked == old(showNotificationsChecked)
      ensures runAtStartupChecked == old(runAtStartupChecked) && startMinimizedChecked == old(startMinimizedChecked)
      ensures useTaskbarAutoHideChecked == old(useTaskbarAutoHideChecked)
      ensures watcher.listening == old(watcher.listening) && watcher.pnpListening == old(watcher.pnpListening)
      ensures watcher.disposed == old(watcher.disposed)
      ensures status == old(status)
    {
      StoreControls();

      if !saveSucceeds {
        return false;
      }
      watcher.UpdateExcludedDevices(settings.excludedDeviceIds);
      dialogResult := OK;
      closed := true;
      saved := true;
    }

    /**
     * The save button's write-back: the controls' values, then the stored list emptied
     * and refilled, entry by entry, from the list box.
     */
    method StoreControls()
      requires settings.excludedDeviceIds.Some?
      modifies settings
      ensures settings.autoSwitchEnabled == autoSwitchChecked
      ensures settings.showNotifications == showNotificationsChecked
      ensures settings.runAtStartup == runAtStartupChecked
      ensures settings.startMinimized == startMinimizedChecked
      ensures settings.useTaskbarAutoHide == useTaskbarAutoHideChecked
      ensures settings.switchDelayMs == switchDelay
      ensures settings.excludedDeviceIds == Some(excluded)
    {
      settings.autoSwitchEnabled := autoSwitchChecked;
      settings.showNotifications := showNotificationsChecked;
      settings.runAtStartup := runAtStartupChecked;
      settings.startMinimized := startMinimizedChecked;
      settings.useTaskbarAutoHide := useTaskbarAutoHideChecked;
      settings.switchDelayMs := switchDelay;

      settings.excludedDeviceIds := Some([]);
      for i := 0 to |excluded|
        invariant settings.excludedDeviceIds == Some(excluded[..i])
        invariant settings.autoSwitchEnabled == autoSwitchChecked
        invariant settings.showNotifications == showNotificationsChecked
        invariant settings.runAtStartup == runAtStartupChecked
        invariant settings.startMinimized == startMinimizedChecked
        invariant settings.useTaskbarAutoHide == useTaskbarAutoHideChecked
        invariant settings.switchDelayMs == switchDelay
      {
        assert excluded[..i + 1] == excluded[..i] + [excluded[i]];
        settings.excludedDeviceIds := Some(settings.excludedDeviceIds.value + [excluded[i]]);
      }
      assert excluded[..|excluded|] == excluded;
    }

    /** The cancel button. */
    method OnCancelClick()
      modifies this
      ensures dialogResult == Cancel && closed
      ensures excluded == old(excluded) && keyboards == old(keyboards) && switchDelay == old(switchDelay) && status == old(status)
      ensures autoSwitchChecked == old(autoSwitchChecked) && showNotificationsChecked == old(showNotificationsChecked)
      ensures runAtStartupChecked == old(runAtStartupChecked) && startMinimizedChecked == old(startMinimizedChecked)
      ensures useTaskbarAutoHideChecked == old(useTaskbarAutoHideChecked)
    {
      dialogResult := Cancel;
      closed := true;
    }
  }
}

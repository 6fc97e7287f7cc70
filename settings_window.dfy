/**
 * The WPF settings dialog, the one the tray opens: it loads the shared settings into
 * its controls, edits the exclusion list, shows the device list and the active count,
 * and on save validates the delay and writes the controls back.
 */
module SettingsWindowModel {
  import opened Wrappers
  import opened Numbers
  import opened KeyboardWatching
  import opened TabletMode
  import opened Settings
  import opened DeviceList

  const MaxSwitchDelayMs: int := 10000

  /** The delay check of the save button: the text parses as an int in [0, 10000]. */
  function ValidateDelay(text: string): (r: Option<int>)
    ensures r.Some? <==> ParseInt32(text).Some? && 0 <= ParseInt32(text).value <= MaxSwitchDelayMs
    ensures r.Some? ==> r == ParseInt32(text)
  {
    match ParseInt32(text)
    case Some(delay) => if delay < 0 || delay > MaxSwitchDelayMs then None else Some(delay)
    case None => None
  }

  /** A delay the dialog loaded and the user left alone passes the check when it is in range... */
  lemma LoadedDelayAccepted(delay: int)
    requires 0 <= delay <= MaxSwitchDelayMs
    ensures ValidateDelay(ShowInt(delay)) == Some(delay)
  {
    ParseShowRoundTrip(delay);
  }

  /** ...and blocks the save when it is not, although the tray itself runs with any delay. */
  lemma LoadedDelayOutOfRangeRejected(delay: int)
    requires IsInt32(delay) && (delay < 0 || delay > MaxSwitchDelayMs)
    ensures ValidateDelay(ShowInt(delay)) == None
  {
    ParseShowRoundTrip(delay);
  }

  /** The delay text may carry white space and a sign; letters are rejected. */
  lemma DelayTextExamples()
    ensures ValidateDelay(" +250 ") == Some(250)
    ensures ValidateDelay("abc") == None
  {
    assert TrimStart(" +250 ") == "+250 " by {
      assert " +250 "[1..] == "+250 ";
    }
    assert TrimEnd("+250 ") == "+250" by {
      assert "+250 "[..4] == "+250";
    }
    assert "+250"[1..] == "250";
    assert DigitsValue("250") == 250 by {
      assert "250"[..2] == "25";
      assert "25"[..1] == "2";
      assert "2"[..0] == "";
    }
  }

  /** How a click on the save button ended. */
  datatype SaveOutcome = DelayRejected | SaveFailed | Saved

  class SettingsWindow {
    const settings: AppSettings
    const watcher: KeyboardWatcher
    const controller: TabletModeController

    var savedSuccessfully: bool
    var closed: bool

    // The controls.
    var autoSwitchChecked: bool
    var showNotificationsChecked: bool
    var runAtStartupChecked: bool
    var startMinimizedChecked: bool
    var useTaskbarAutoHideChecked: bool
    var delayText: string
    /** `lstExcluded.Items` */
    var excluded: seq<string>
    /** `lstKeyboards.Items` */
    var keyboards: seq<ListItem>
    /** `lblStatus.Text` */
    var status: Status

    /**
     * Build the dialog: load the settings into the controls, then rescan and fill the
     * device list. `devices` is what `GetAllKeyboardDevices` returns meanwhile.
     */
    constructor (settings: AppSettings, watcher: KeyboardWatcher, controller: TabletModeController,
                 e: Enumeration, devices: seq<DeviceEntry>)
      modifies watcher
      ensures this.settings == settings && this.watcher == watcher && this.controller == controller
      ensures !savedSuccessfully && !closed
      ensures autoSwitchChecked == settings.autoSwitchEnabled && showNotificationsChecked == settings.showNotifications
      ensures runAtStartupChecked == settings.runAtStartup && startMinimizedChecked == settings.startMinimized
      ensures useTaskbarAutoHideChecked == settings.useTaskbarAutoHide
      ensures delayText == ShowInt(settings.switchDelayMs)
      ensures excluded == settings.excludedDeviceIds.GetOr([])
      ensures watcher.exclusionUpdates == old(watcher.exclusionUpdates) + [Some(excluded)]
      ensures watcher.connected == ScanOutcome(e.keyboards, e.pnp, e.failAfter)
      ensures keyboards == VisibleItems(devices, FoldedIds(excluded))
      ensures status == StatusFor(controller.IsTabletMode(), devices, excluded)
      ensures watcher.listening == old(watcher.listening) && watcher.pnpListening == old(watcher.pnpListening)
      ensures watcher.disposed == old(watcher.disposed)
    {
      this.settings := settings;
      this.watcher := watcher;
      this.controller := controller;
      savedSuccessfully := false;
      closed := false;
      autoSwitchChecked := false;
      showNotificationsChecked := false;
      runAtStartupChecked := false;
      startMinimizedChecked := false;
      useTaskbarAutoHideChecked := false;
      delayText := "";
      excluded := [];
      keyboards := [];
      status := Status(false, 0, 0);
      new;
      LoadSettings(devices);
      RefreshKeyboardList(e, devices);
    }

    /** `LoadSettings`: copy the settings into the controls; a null exclusion list loads as empty. */
    method LoadSettings(devices: seq<DeviceEntry>)
      modifies this, watcher
      ensures autoSwitchChecked == settings.autoSwitchEnabled && showNotificationsChecked == settings.showNotifications
      ensures runAtStartupChecked == settings.runAtStartup && startMinimizedChecked == settings.startMinimized
      ensures useTaskbarAutoHideChecked == settings.useTaskbarAutoHide
      ensures delayText == ShowInt(settings.switchDelayMs)
      ensures excluded == settings.excludedDeviceIds.GetOr([])
      ensures watcher.exclusionUpdates == old(watcher.exclusionUpdates) + [Some(excluded)]
      ensures watcher.connected == old(watcher.connected)
      ensures status == StatusFor(controller.IsTabletMode(), devices, excluded)
      ensures watcher.listening == old(watcher.listening) && watcher.pnpListening == old(watcher.pnpListening)
      ensures watcher.disposed == old(watcher.disposed)
      ensures keyboards == old(keyboards) && savedSuccessfully == old(savedSuccessfully) && closed == old(closed)
    {
      autoSwitchChecked := settings.autoSwitchEnabled;
      showNotificationsChecked := settings.showNotifications;
      runAtStartupChecked := settings.runAtStartup;
      startMinimizedChecked := settings.startMinimized;
      useTaskbarAutoHideChecked := settings.useTaskbarAutoHide;
      delayText := ShowInt(settings.switchDelayMs);

      var items: seq<string> := [];
      if settings.excludedDeviceIds.Some? {
        var stored := settings.excludedDeviceIds.value;
        for i := 0 to |stored|
          invariant items == stored[..i]
        {
          items := items + [stored[i]];
        }
        assert stored[..|stored|] == stored;
      }
      excluded := items;

      watcher.UpdateExcludedDevices(Some(settings.excludedDeviceIds.GetOr([])));
      UpdateStatus(devices);
    }

    /** `RefreshKeyboardList`: rescan, then list every device whose id is not excluded, ignoring case. */
    method RefreshKeyboardList(e: Enumeration, devices: seq<DeviceEntry>)
      modifies this, watcher
      ensures watcher.connected == ScanOutcome(e.keyboards, e.pnp, e.failAfter)
      ensures watcher.exclusionUpdates == old(watcher.exclusionUpdates)
      ensures watcher.listening == old(watcher.listening) && watcher.pnpListening == old(watcher.pnpListening)
      ensures watcher.disposed == old(watcher.disposed)
      ensures keyboards == VisibleItems(devices, FoldedIds(excluded))
      ensures status == StatusFor(controller.IsTabletMode(), devices, excluded)
      ensures excluded == old(excluded) && delayText == old(delayText)
      ensures savedSuccessfully == old(savedSuccessfully) && closed == old(closed)
      ensures autoSwitchChecked == old(autoSwitchChecked) && showNotificationsChecked == old(showNotificationsChecked)
      ensures runAtStartupChecked == old(runAtStartupChecked) && startMinimizedChecked == old(startMinimizedChecked)
      ensures useTaskbarAutoHideChecked == old(useTaskbarAutoHideChecked)
    {
      var _ := watcher.ScanExistingKeyboards(e.keyboards, e.pnp, e.failAfter);
      var excludedIds := BuildExcludedIds(excluded);
      var items: seq<ListItem> := [];
      for i := 0 to |devices|
        invariant items == VisibleItems(devices[..i], excludedIds)
      {
        assert devices[..i + 1][..i] == devices[..i];
        var d := devices[i];
        if !IsExcluded(excludedIds, d.deviceId) {
          items := items + [ItemFor(d)];
        }
      }
      keyboards := items;
      assert devices[..|devices|] == devices;
      UpdateStatus(devices);
    }

    /** `UpdateStatus`: the mode read live, the active count and the device total. */
    method UpdateStatus(devices: seq<DeviceEntry>)
      modifies this
      ensures status == StatusFor(controller.IsTabletMode(), devices, excluded)
      ensures keyboards == old(keyboards) && excluded == old(excluded) && delayText == old(delayText)
      ensures savedSuccessfully == old(savedSuccessfully) && closed == old(closed)
      ensures autoSwitchChecked == old(autoSwitchChecked) && showNotificationsChecked == old(showNotificationsChecked)
      ensures runAtStartupChecked == old(runAtStartupChecked) && startMinimizedChecked == old(startMinimizedChecked)
      ensures useTaskbarAutoHideChecked == old(useTaskbarAutoHideChecked)
    {
      var mode := controller.IsTabletMode();
      var excludedIds := BuildExcludedIds(excluded);
      status := Status(mode, ActiveCount(devices, excludedIds), |devices|);
    }

    /**
     * The add-to-exclusion button. `selection` is the index of the selected row, if any;
     * without one the dialog only shows a hint, and `prompted` says so.
     */
    method OnAddExcludeClick(selection: Option<nat>, e: Enumeration, devices: seq<DeviceEntry>) returns (prompted: bool)
      requires selection.Some? ==> selection.value < |keyboards|
      modifies this, watcher
      ensures prompted <==> selection.None?
      ensures selection.Some? ==> excluded == AddExclusion(old(excluded), old(keyboards)[selection.value].deviceId)
      ensures excluded != old(excluded) ==>
        watcher.connected == ScanOutcome(e.keyboards, e.pnp, e.failAfter)
        && keyboards == VisibleItems(devices, FoldedIds(excluded))
        && status == StatusFor(controller.IsTabletMode(), devices, excluded)
      ensures excluded == old(excluded) ==>
        keyboards == old(keyboards) && status == old(status) && watcher.connected == old(watcher.connected)
      ensures watcher.exclusionUpdates == old(watcher.exclusionUpdates)
      ensures delayText == old(delayText) && savedSuccessfully == old(savedSuccessfully) && closed == old(closed)
      ensures watcher.listening == old(watcher.listening) && watcher.pnpListening == old(watcher.pnpListening)
      ensures watcher.disposed == old(watcher.disposed)
      ensures autoSwitchChecked == old(autoSwitchChecked) && showNotificationsChecked == old(showNotificationsChecked)
      ensures runAtStartupChecked == old(runAtStartupChecked) && startMinimizedChecked == old(startMinimizedChecked)
      ensures useTaskbarAutoHideChecked == old(useTaskbarAutoHideChecked)
    {
      if selection.Some? {
        prompted := false;
        var id := keyboards[selection.value].deviceId;
        if id !in excluded {
          excluded := excluded + [id];
          RefreshKeyboardList(e, devices);
        }
      } else {
        prompted := true;
      }
    }

    /** The remove-exclusion button; `selection` is the index of the selected exclusion entry, if any. */
    method OnRemoveExcludeClick(selection: Option<nat>, e: Enumeration, devices: seq<DeviceEntry>)
      requires selection.Some? ==> selection.value < |excluded|
      modifies this, watcher
      ensures selection.Some? ==>
        excluded == RemoveFirst(old(excluded), old(excluded)[selection.value])
        && watcher.connected == ScanOutcome(e.keyboards, e.pnp, e.failAfter)
        && keyboards == VisibleItems(devices, FoldedIds(excluded))
        && status == StatusFor(controller.IsTabletMode(), devices, excluded)
      ensures selection.None? ==>
        excluded == old(excluded) && keyboards == old(keyboards) && status == old(status)
        && watcher.connected == old(watcher.connected)
      ensures watcher.exclusionUpdates == old(watcher.exclusionUpdates)
      ensures delayText == old(delayText) && savedSuccessfully == old(savedSuccessfully) && closed == old(closed)
      ensures watcher.listening == old(watcher.listening) && watcher.pnpListening == old(watcher.pnpListening)
      ensures watcher.disposed == old(watcher.disposed)
      ensures autoSwitchChecked == old(autoSwitchChecked) && showNotificationsChecked == old(showNotificationsChecked)
      ensures runAtStartupChecked == old(runAtStartupChecked) && startMinimizedChecked == old(startMinimizedChecked)
      ensures useTaskbarAutoHideChecked == old(useTaskbarAutoHideChecked)
    {
      if selection.Some? {
        excluded := RemoveFirst(excluded, excluded[selection.value]);
        RefreshKeyboardList(e, devices);
      }
    }

    /**
     * The save button. `saveSucceeds` is what `AppSettings.Save()` returns. A bad delay
     * changes nothing; otherwise the settings object takes the controls' values before
     * the save is attempted, and only a successful save updates the watcher and closes.
     */
    method OnSaveClick(saveSucceeds: bool) returns (outcome: SaveOutcome)
      modifies this, settings, watcher
      ensures ValidateDelay(old(delayText)).None? ==>
        outcome == DelayRejected
        && settings.autoSwitchEnabled == old(settings.autoSwitchEnabled)
        && settings.showNotifications == old(settings.showNotifications)
        && settings.runAtStartup == old(settings.runAtStartup)
        && settings.startMinimized == old(settings.startMinimized)
        && settings.useTaskbarAutoHide == old(settings.useTaskbarAutoHide)
        && settings.switchDelayMs == old(settings.switchDelayMs)
        && settings.excludedDeviceIds == old(settings.excludedDeviceIds)
      ensures ValidateDelay(old(delayText)).Some? ==>
        && settings.autoSwitchEnabled == autoSwitchChecked
        && settings.showNotifications == showNotificationsChecked
        && settings.runAtStartup == runAtStartupChecked
        && settings.startMinimized == startMinimizedChecked
        && settings.useTaskbarAutoHide == useTaskbarAutoHideChecked
        && settings.switchDelayMs == ValidateDelay(old(delayText)).value
        && settings.excludedDeviceIds == Some(excluded)
        && outcome == (if saveSucceeds then Saved else SaveFailed)
      ensures outcome == Saved ==>
        savedSuccessfully && closed && watcher.exclusionUpdates == old(watcher.exclusionUpdates) + [Some(excluded)]
      ensures outcome != Saved ==>
        savedSuccessfully == old(savedSuccessfully) && closed == old(closed)
        && watcher.exclusionUpdates == old(watcher.exclusionUpdates)
      ensures watcher.connected == old(watcher.connected)
      ensures excluded == old(excluded) && keyboards == old(keyboards) && delayText == old(delayText)
      ensures autoSwitchChecked == old(autoSwitchChecked) && showNotificationsChecked == old(showNotificationsChecked)
      ensures runAtStartupChecked == old(runAtStartupChecked) && startMinimizedChecked == old(startMinimizedChecked)
      ensures useTaskbarAutoHideChecked == old(useTaskbarAutoHideChecked)
      ensures watcher.listening == old(watcher.listening) && watcher.pnpListening == old(watcher.pnpListening)
      ensures watcher.disposed == old(watcher.disposed)
      ensures status == old(status)
    {
      var parsed := ParseInt32(delayText);
      if parsed.None? || parsed.value < 0 || parsed.value > MaxSwitchDelayMs {
        return DelayRejected;
      }
      StoreControls(parsed.value);
      if !saveSucceeds {
        return SaveFailed;
      }
      watcher.UpdateExcludedDevices(settings.excludedDeviceIds);
      savedSuccessfully := true;
      closed := true;
      outcome := Saved;
    }

    /** The save button's write-back: the controls' values and a copy of the exclusion list. */
    method StoreControls(delay: int)
      modifies settings
      ensures settings.autoSwitchEnabled == autoSwitchChecked
      ensures settings.showNotifications == showNotificationsChecked
      ensures settings.runAtStartup == runAtStartupChecked
      ensures settings.startMinimized == startMinimizedChecked
      ensures settings.useTaskbarAutoHide == useTaskbarAutoHideChecked
      ensures settings.switchDelayMs == delay
      ensures settings.excludedDeviceIds == Some(excluded)
    {
      settings.autoSwitchEnabled := autoSwitchChecked;
      settings.showNotifications := showNotificationsChecked;
      settings.runAtStartup := runAtStartupChecked;
      settings.startMinimized := startMinimizedChecked;
      settings.useTaskbarAutoHide := useTaskbarAutoHideChecked;
      settings.switchDelayMs := delay;

      var excludedList: seq<string> := [];
      for i := 0 to |excluded|
        invariant excludedList == excluded[..i]
        modifies {}
      {
        excludedList := excludedList + [excluded[i]];
      }
      assert excludedList == excluded;
      settings.excludedDeviceIds := Some(excludedList);
    }

    /** The cancel button. */
    method OnCancelClick()
      modifies this
      ensures !savedSuccessfully && closed
      ensures excluded == old(excluded) && keyboards == old(keyboards) && delayText == old(delayText) && status == old(status)
      ensures autoSwitchChecked == old(autoSwitchChecked) && showNotificationsChecked == old(showNotificationsChecked)
      ensures runAtStartupChecked == old(runAtStartupChecked) && startMinimizedChecked == old(startMinimizedChecked)
      ensures useTaskbarAutoHideChecked == old(useTaskbarAutoHideChecked)
    {
      savedSuccessfully := false;
      closed := true;
    }
  }
}

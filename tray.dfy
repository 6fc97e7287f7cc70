/**
 * The tray application: it owns the keyboard watcher and the posture controller,
 * decides the posture from the number of connected keyboards, and reconciles it on
 * keyboard events, on a 2-second poll and on a manual rescan.
 */
module Tray {
  import opened Wrappers
  import opened Numbers
  import opened KeyboardWatching
  import opened TabletMode
  import opened Settings
  import SettingsWindowModel
  import SettingsFormModel

  const PollIntervalMs: int := 2000

  /** The posture a switch moves to. */
  datatype Posture = Tablet | Desktop

  /**
   * `SwitchModeBasedOnKeyboardState`: which switch, if any, it makes. A switch always
   * moves to the posture the keyboard count calls for, and none is made exactly when
   * the current mode already matches it.
   */
  function Decide(count: nat, tabletMode: bool): (r: Option<Posture>)
    ensures r.Some? ==> (r.value == Tablet <==> count == 0)
    ensures r.None? <==> ((count == 0) == tabletMode)
  {
    if count > 0 then
      if tabletMode then Some(Desktop) else None
    else
      if !tabletMode then Some(Tablet) else None
  }

  /** The registry after the switch, if any. */
  function Applied(reg: Registry, action: Option<Posture>, useTaskbarAutoHide: bool): Registry {
    match action
    case None => reg
    case Some(p) => PostureWritten(reg, p == Tablet, useTaskbarAutoHide)
  }

  /** The `ModeChanged` events the switch raises. */
  function Announced(action: Option<Posture>): seq<ModeChangedArgs> {
    match action
    case None => []
    case Some(p) => [ModeChangedArgs(p == Desktop)]
  }

  /** The registry after running the decision rule against it. */
  function Reconciled(reg: Registry, count: nat, useTaskbarAutoHide: bool): Registry {
    Applied(reg, Decide(count, TabletFlag(reg)), useTaskbarAutoHide)
  }

  /** The events running the decision rule against `reg` raises. */
  function ReconcileEvents(reg: Registry, count: nat): seq<ModeChangedArgs> {
    Announced(Decide(count, TabletFlag(reg)))
  }

  /** The unconditional switch made at startup when auto-switch is on. */
  function StartupAction(autoSwitchEnabled: bool, count: nat): Option<Posture> {
    if !autoSwitchEnabled then None else if count > 0 then Some(Desktop) else Some(Tablet)
  }

  // ---- The switch timer interval ----

  /**
   * `Timer.Interval = delayMs` as the source writes it: Windows Forms rejects an interval
   * below 1 with an exception, shown here as None.
   */
  function IntervalAsWritten(delayMs: int): (r: Option<int>)
    ensures r.Some? <==> delayMs >= 1
    ensures r.Some? ==> r.value == delayMs
  {
    if delayMs < 1 then None else Some(delayMs)
  }

  /** The interval the timer is given in this model: a delay of 0 means the shortest interval. */
  function SwitchTimerInterval(delayMs: int): (r: int)
    ensures r >= 1
    ensures delayMs >= 1 ==> r == delayMs
    ensures IntervalAsWritten(r) == Some(r)
  {
    if delayMs < 1 then 1 else delayMs
  }

  /**
   * Both dialogs let the user store a delay of 0, and assigning it to the timer as the
   * source does throws, at the next start and right after the save.
   */
  lemma ZeroDelayBreaksTimer()
    ensures SettingsWindowModel.ValidateDelay("0") == Some(0)
    ensures SettingsFormModel.Clamp(0, SettingsFormModel.MinSwitchDelayMs, SettingsFormModel.MaxSwitchDelayMs) == 0
    ensures IntervalAsWritten(0) == None
  {
    SettingsWindowModel.LoadedDelayAccepted(0);
    assert ShowInt(0) == "0";
  }

  /** With the corrected interval every delay either dialog can save is accepted by the timer. */
  lemma SavedDelaysAreAccepted(text: string, loaded: int)
    ensures SettingsWindowModel.ValidateDelay(text).Some? ==>
      IntervalAsWritten(SwitchTimerInterval(SettingsWindowModel.ValidateDelay(text).value)).Some?
    ensures IntervalAsWritten(SwitchTimerInterval(
      SettingsFormModel.Clamp(loaded, SettingsFormModel.MinSwitchDelayMs, SettingsFormModel.MaxSwitchDelayMs))).Some?
  {
  }

  // ---- Properties of the decision rule ----

  /**
   * When the controller reads back what it writes, one run of the decision rule leaves
   * tablet mode on exactly when no keyboard is connected, and a second run switches nothing.
   */
  lemma DecisionSettles(reg: Registry, count: nat, useTaskbarAutoHide: bool)
    requires SlateWritable(reg)
    ensures TabletFlag(Reconciled(reg, count, useTaskbarAutoHide)) == (count == 0)
    ensures Decide(count, TabletFlag(Reconciled(reg, count, useTaskbarAutoHide))).None?
    ensures |ReconcileEvents(reg, count)| <= 1
  {
    var action := Decide(count, TabletFlag(reg));
    if action.Some? {
      SetThenReadBack(reg, action.value == Tablet, useTaskbarAutoHide);
    }
  }

  /**
   * When the slate value cannot be written, the mode never changes, so every later run
   * of the rule makes, and announces, the same switch again.
   */
  lemma UnwritableSlateSwitchesAgain(reg: Registry, count: nat, useTaskbarAutoHide: bool)
    requires !SlateWritable(reg)
    ensures TabletFlag(Reconciled(reg, count, useTaskbarAutoHide)) == TabletFlag(reg)
    ensures Decide(count, TabletFlag(Reconciled(reg, count, useTaskbarAutoHide))) == Decide(count, TabletFlag(reg))
  {
    var action := Decide(count, TabletFlag(reg));
    if action.Some? {
      UnwritableSlateKeepsMode(reg, action.value == Tablet, useTaskbarAutoHide);
    }
  }

  /** The startup switch ignores the current mode, but lands where the decision rule would. */
  lemma StartupAgreesWithDecision(reg: Registry, count: nat, useTaskbarAutoHide: bool)
    requires SlateWritable(reg)
    ensures TabletFlag(Applied(reg, StartupAction(true, count), useTaskbarAutoHide)) == (count == 0)
    ensures TabletFlag(Applied(reg, StartupAction(true, count), useTaskbarAutoHide))
      == TabletFlag(Reconciled(reg, count, useTaskbarAutoHide))
    ensures |Announced(StartupAction(true, count))| == 1
  {
    SetThenReadBack(reg, count == 0, useTaskbarAutoHide);
    DecisionSettles(reg, count, useTaskbarAutoHide);
  }

  /** What a Windows Forms timer's `Interval` is when nothing else is assigned. */
  const DefaultTimerInterval: int := 100

  class TrayApplicationContext {
    var settings: AppSettings
    const watcher: KeyboardWatcher
    const controller: TabletModeController
    /**
     * Whether the constructor ran to the end. It stops at the switch timer's `Interval`
     * when the stored delay is below 1; that exception leaves `Application.Run` before
     * it starts, and the process ends.
     */
    var started: bool
    /** `_lastKeyboardCount`; -1 until the first scan has been counted. */
    var lastKeyboardCount: int
    /** `_switchTimer`: created and re-intervalled, but never started. */
    var switchTimerInterval: int
    var switchTimerEnabled: bool
    /** `_pollTimer` */
    var pollTimerEnabled: bool
    var disposed: bool

    /** A started tray: the switch timer holds an interval it accepted and never runs. */
    predicate Valid()
      reads this
    {
      started && switchTimerInterval >= 1 && !switchTimerEnabled && lastKeyboardCount >= -1
    }

    /**
     * Startup. `loaded` is what `AppSettings.Load()` returns, `registry` the registry
     * the new controller works on, `e` the first scan's enumeration, and
     * `pnpWatcherStarts` whether the PnP watchers could be started. A stored delay the
     * timer rejects stops the constructor after the exclusion list has been handed over.
     */
    constructor (loaded: AppSettings, registry: Registry, e: Enumeration, pnpWatcherStarts: bool)
      ensures started <==> IntervalAsWritten(loaded.switchDelayMs).Some?
      ensures started ==> Valid()
      ensures settings == loaded && fresh(watcher) && fresh(controller)
      ensures controller.useTaskbarAutoHide == loaded.useTaskbarAutoHide
      ensures watcher.exclusionUpdates == [loaded.excludedDeviceIds] && !watcher.disposed
      ensures !switchTimerEnabled && !disposed
      ensures started ==>
        switchTimerInterval == loaded.switchDelayMs
        && watcher.connected == ScanOutcome(e.keyboards, e.pnp, e.failAfter)
        && watcher.listening && watcher.pnpListening == pnpWatcherStarts
        && lastKeyboardCount == |watcher.connected|
        && pollTimerEnabled
        && controller.registry == Applied(registry, StartupAction(loaded.autoSwitchEnabled, |watcher.connected|), loaded.useTaskbarAutoHide)
        && controller.modeChanges == Announced(StartupAction(loaded.autoSwitchEnabled, |watcher.connected|))
      ensures !started ==>
        switchTimerInterval == DefaultTimerInterval
        && watcher.connected == {} && !watcher.listening && !watcher.pnpListening
        && lastKeyboardCount == -1 && !pollTimerEnabled
        && controller.registry == registry && controller.modeChanges == []
    {
      var c := new TabletModeController(registry);
      c.useTaskbarAutoHide := loaded.useTaskbarAutoHide;
      var w := new KeyboardWatcher();
      w.UpdateExcludedDevices(loaded.excludedDeviceIds);

      settings := loaded;
      controller := c;
      watcher := w;
      lastKeyboardCount := -1;
      switchTimerInterval := DefaultTimerInterval;
      switchTimerEnabled := false;
      pollTimerEnabled := false;
      disposed := false;
      started := false;
      new;

      var interval := IntervalAsWritten(settings.switchDelayMs);
      if interval.None? {
        return;
      }
      switchTimerInterval := interval.value;

      var _ := watcher.Start(e.keyboards, e.pnp, e.failAfter, pnpWatcherStarts);
      lastKeyboardCount := watcher.ConnectedKeyboardCount();
      if settings.autoSwitchEnabled {
        if watcher.HasKeyboardConnected() {
          var _ := controller.SwitchToDesktopMode();
        } else {
          var _ := controller.SwitchToTabletMode();
        }
      }
      pollTimerEnabled := true;
      started := true;
    }

    /** `SwitchModeBasedOnKeyboardState`: reads the count and the live mode, and switches at most once. */
    method SwitchModeBasedOnKeyboardState() returns (action: Option<Posture>)
      modifies controller
      ensures action == Decide(|watcher.connected|, TabletFlag(old(controller.registry)))
      ensures controller.registry == Reconciled(old(controller.registry), |watcher.connected|, controller.useTaskbarAutoHide)
      ensures controller.modeChanges == old(controller.modeChanges) + ReconcileEvents(old(controller.registry), |watcher.connected|)
      ensures controller.useTaskbarAutoHide == old(controller.useTaskbarAutoHide)
    {
      action := None;
      if watcher.ConnectedKeyboardCount() > 0 {
        if controller.IsTabletMode() {
          var _ := controller.SwitchToDesktopMode();
          action := Some(Desktop);
        }
      } else {
        if !controller.IsTabletMode() {
          var _ := controller.SwitchToTabletMode();
          action := Some(Tablet);
        }
      }
    }

    /** The `KeyboardConnected` subscriber: with auto-switch on, record the count and decide. */
    method OnKeyboardConnected()
      requires Valid()
      modifies this, controller
      ensures Valid() && settings == old(settings)
      ensures switchTimerInterval == old(switchTimerInterval) && switchTimerEnabled == old(switchTimerEnabled)
      ensures pollTimerEnabled == old(pollTimerEnabled) && disposed == old(disposed)
      ensures controller.useTaskbarAutoHide == old(controller.useTaskbarAutoHide)
      ensures settings.autoSwitchEnabled ==>
        lastKeyboardCount == |watcher.connected|
        && controller.registry == Reconciled(old(controller.registry), |watcher.connected|, controller.useTaskbarAutoHide)
        && controller.modeChanges == old(controller.modeChanges) + ReconcileEvents(old(controller.registry), |watcher.connected|)
      ensures !settings.autoSwitchEnabled ==>
        lastKeyboardCount == old(lastKeyboardCount)
        && controller.registry == old(controller.registry) && controller.modeChanges == old(controller.modeChanges)
    {
      if !settings.autoSwitchEnabled {
        return;
      }
      lastKeyboardCount := watcher.ConnectedKeyboardCount();
      var _ := SwitchModeBasedOnKeyboardState();
    }

    /**
     * The `KeyboardDisconnected` subscriber: with auto-switch on, record the count, and
     * decide only once the last keyboard is gone.
     */
    method OnKeyboardDisconnected()
      requires Valid()
      modifies this, controller
      ensures Valid() && settings == old(settings)
      ensures switchTimerInterval == old(switchTimerInterval) && switchTimerEnabled == old(switchTimerEnabled)
      ensures pollTimerEnabled == old(pollTimerEnabled) && disposed == old(disposed)
      ensures controller.useTaskbarAutoHide == old(controller.useTaskbarAutoHide)
      ensures settings.autoSwitchEnabled ==> lastKeyboardCount == |watcher.connected|
      ensures settings.autoSwitchEnabled && watcher.connected == {} ==>
        controller.registry == Reconciled(old(controller.registry), 0, controller.useTaskbarAutoHide)
        && controller.modeChanges == old(controller.modeChanges) + ReconcileEvents(old(controller.registry), 0)
      ensures !(settings.autoSwitchEnabled && watcher.connected == {}) ==>
        controller.registry == old(controller.registry) && controller.modeChanges == old(controller.modeChanges)
      ensures !settings.autoSwitchEnabled ==> lastKeyboardCount == old(lastKeyboardCount)
    {
      if !settings.autoSwitchEnabled {
        return;
      }
      lastKeyboardCount := watcher.ConnectedKeyboardCount();
      if watcher.ConnectedKeyboardCount() == 0 {
        var _ := SwitchModeBasedOnKeyboardState();
      }
    }

    /** `OnSwitchTimerTick`: stop the timer, then decide once. */
    method OnSwitchTimerTick()
      requires Valid()
      modifies this, controller
      ensures Valid() && !switchTimerEnabled
      ensures settings == old(settings) && lastKeyboardCount == old(lastKeyboardCount)
      ensures switchTimerInterval == old(switchTimerInterval)
      ensures pollTimerEnabled == old(pollTimerEnabled) && disposed == old(disposed)
      ensures controller.useTaskbarAutoHide == old(controller.useTaskbarAutoHide)
      ensures controller.registry == Reconciled(old(controller.registry), |watcher.connected|, controller.useTaskbarAutoHide)
      ensures controller.modeChanges == old(controller.modeChanges) + ReconcileEvents(old(controller.registry), |watcher.connected|)
    {
      switchTimerEnabled := false;
      var _ := SwitchModeBasedOnKeyboardState();
    }

    /**
     * `OnPollTimerTick`: with auto-switch on, rescan, and decide only when the count
     * differs from the one last recorded.
     */
    method OnPollTimerTick(e: Enumeration)
      requires Valid()
      modifies this, watcher, controller
      ensures Valid() && settings == old(settings)
      ensures switchTimerInterval == old(switchTimerInterval) && switchTimerEnabled == old(switchTimerEnabled)
      ensures pollTimerEnabled == old(pollTimerEnabled) && disposed == old(disposed)
      ensures controller.useTaskbarAutoHide == old(controller.useTaskbarAutoHide)
      ensures watcher.listening == old(watcher.listening) && watcher.pnpListening == old(watcher.pnpListening)
      ensures watcher.disposed == old(watcher.disposed) && watcher.exclusionUpdates == old(watcher.exclusionUpdates)
      ensures !settings.autoSwitchEnabled ==>
        watcher.connected == old(watcher.connected) && lastKeyboardCount == old(lastKeyboardCount)
        && controller.registry == old(controller.registry) && controller.modeChanges == old(controller.modeChanges)
      ensures settings.autoSwitchEnabled ==>
        watcher.connected == ScanOutcome(e.keyboards, e.pnp, e.failAfter) && lastKeyboardCount == |watcher.connected|
      ensures settings.autoSwitchEnabled && |watcher.connected| != old(lastKeyboardCount) ==>
        controller.registry == Reconciled(old(controller.registry), |watcher.connected|, controller.useTaskbarAutoHide)
        && controller.modeChanges == old(controller.modeChanges) + ReconcileEvents(old(controller.registry), |watcher.connected|)
      ensures settings.autoSwitchEnabled && |watcher.connected| == old(lastKeyboardCount) ==>
        controller.registry == old(controller.registry) && controller.modeChanges == old(controller.modeChanges)
    {
      if !settings.autoSwitchEnabled {
        return;
      }
      var _ := watcher.ScanExistingKeyboards(e.keyboards, e.pnp, e.failAfter);
      var currentCount := watcher.ConnectedKeyboardCount();
      if currentCount != lastKeyboardCount {
        lastKeyboardCount := currentCount;
        var _ := SwitchModeBasedOnKeyboardState();
      }
    }

    /**
     * The rescan menu item: always rescan, decide when auto-switch is on; the recorded
     * count is left as it was.
     */
    method OnRescanClick(e: Enumeration)
      modifies watcher, controller
      ensures watcher.connected == ScanOutcome(e.keyboards, e.pnp, e.failAfter)
      ensures watcher.listening == old(watcher.listening) && watcher.pnpListening == old(watcher.pnpListening)
      ensures watcher.disposed == old(watcher.disposed) && watcher.exclusionUpdates == old(watcher.exclusionUpdates)
      ensures controller.useTaskbarAutoHide == old(controller.useTaskbarAutoHide)
      ensures settings.autoSwitchEnabled ==>
        controller.registry == Reconciled(old(controller.registry), |watcher.connected|, controller.useTaskbarAutoHide)
        && controller.modeChanges == old(controller.modeChanges) + ReconcileEvents(old(controller.registry), |watcher.connected|)
      ensures !settings.autoSwitchEnabled ==>
        controller.registry == old(controller.registry) && controller.modeChanges == old(controller.modeChanges)
    {
      var _ := watcher.ScanExistingKeyboards(e.keyboards, e.pnp, e.failAfter);
      if settings.autoSwitchEnabled {
        var _ := SwitchModeBasedOnKeyboardState();
      }
    }

    // ---- The watcher's events, delivered to the subscribers wired up at startup ----

    /** A Win32_Keyboard creation event. */
    method DeviceInserted(d: DeviceRecord)
      requires Valid()
      modifies this, watcher, controller
      ensures Addable(d.deviceId, old(watcher.connected)) ==> watcher.connected == old(watcher.connected) + {d.deviceId.value}
      ensures !Addable(d.deviceId, old(watcher.connected)) ==> watcher.connected == old(watcher.connected)
      ensures Valid() && settings == old(settings) && disposed == old(disposed)
      ensures switchTimerInterval == old(switchTimerInterval) && switchTimerEnabled == old(switchTimerEnabled)
      ensures pollTimerEnabled == old(pollTimerEnabled) && controller.useTaskbarAutoHide == old(controller.useTaskbarAutoHide)
      ensures watcher.listening == old(watcher.listening) && watcher.pnpListening == old(watcher.pnpListening)
      ensures watcher.disposed == old(watcher.disposed) && watcher.exclusionUpdates == old(watcher.exclusionUpdates)
      ensures Addable(d.deviceId, old(watcher.connected)) && settings.autoSwitchEnabled ==>
        lastKeyboardCount == |watcher.connected|
        && controller.registry == Reconciled(old(controller.registry), |watcher.connected|, controller.useTaskbarAutoHide)
        && controller.modeChanges == old(controller.modeChanges) + ReconcileEvents(old(controller.registry), |watcher.connected|)
      ensures !(Addable(d.deviceId, old(watcher.connected)) && settings.autoSwitchEnabled) ==>
        lastKeyboardCount == old(lastKeyboardCount)
        && controller.registry == old(controller.registry) && controller.modeChanges == old(controller.modeChanges)
    {
      var raised := watcher.OnDeviceInserted(d);
      if raised != [] {
        OnKeyboardConnected();
      }
    }

    /** A Win32_PnPEntity creation event. */
    method PnPDeviceInserted(d: DeviceRecord)
      requires Valid()
      modifies this, watcher, controller
      ensures IsKeyboardDevice(d) && Addable(d.deviceId, old(watcher.connected)) ==>
        watcher.connected == old(watcher.connected) + {d.deviceId.value}
      ensures !(IsKeyboardDevice(d) && Addable(d.deviceId, old(watcher.connected))) ==> watcher.connected == old(watcher.connected)
      ensures Valid() && settings == old(settings) && disposed == old(disposed)
      ensures switchTimerInterval == old(switchTimerInterval) && switchTimerEnabled == old(switchTimerEnabled)
      ensures pollTimerEnabled == old(pollTimerEnabled) && controller.useTaskbarAutoHide == old(controller.useTaskbarAutoHide)
      ensures watcher.listening == old(watcher.listening) && watcher.pnpListening == old(watcher.pnpListening)
      ensures watcher.disposed == old(watcher.disposed) && watcher.exclusionUpdates == old(watcher.exclusionUpdates)
      ensures IsKeyboardDevice(d) && Addable(d.deviceId, old(watcher.connected)) && settings.autoSwitchEnabled ==>
        lastKeyboardCount == |watcher.connected|
        && controller.registry == Reconciled(old(controller.registry), |watcher.connected|, controller.useTaskbarAutoHide)
        && controller.modeChanges == old(controller.modeChanges) + ReconcileEvents(old(controller.registry), |watcher.connected|)
      ensures !(IsKeyboardDevice(d) && Addable(d.deviceId, old(watcher.connected)) && settings.autoSwitchEnabled) ==>
        lastKeyboardCount == old(lastKeyboardCount)
        && controller.registry == old(controller.registry) && controller.modeChanges == old(controller.modeChanges)
    {
      var raised := watcher.OnPnPDeviceInserted(d);
      if raised != [] {
        OnKeyboardConnected();
      }
    }

    /** A Win32_Keyboard deletion event. */
    method DeviceRemoved(d: DeviceRecord)
      requires Valid()
      modifies this, watcher, controller
      ensures Removable(d.deviceId, old(watcher.connected)) ==> watcher.connected == old(watcher.connected) - {d.deviceId.value}
      ensures !Removable(d.deviceId, old(watcher.connected)) ==> watcher.connected == old(watcher.connected)
      ensures Valid() && settings == old(settings) && disposed == old(disposed)
      ensures switchTimerInterval == old(switchTimerInterval) && switchTimerEnabled == old(switchTimerEnabled)
      ensures pollTimerEnabled == old(pollTimerEnabled) && controller.useTaskbarAutoHide == old(controller.useTaskbarAutoHide)
      ensures watcher.listening == old(watcher.listening) && watcher.pnpListening == old(watcher.pnpListening)
      ensures watcher.disposed == old(watcher.disposed) && watcher.exclusionUpdates == old(watcher.exclusionUpdates)
      ensures Removable(d.deviceId, old(watcher.connected)) && settings.autoSwitchEnabled ==> lastKeyboardCount == |watcher.connected|
      ensures !(Removable(d.deviceId, old(watcher.connected)) && settings.autoSwitchEnabled) ==> lastKeyboardCount == old(lastKeyboardCount)
      ensures Removable(d.deviceId, old(watcher.connected)) && settings.autoSwitchEnabled && watcher.connected == {} ==>
        controller.registry == Reconciled(old(controller.registry), 0, controller.useTaskbarAutoHide)
        && controller.modeChanges == old(controller.modeChanges) + ReconcileEvents(old(controller.registry), 0)
      ensures !(Removable(d.deviceId, old(watcher.connected)) && settings.autoSwitchEnabled && watcher.connected == {}) ==>
        controller.registry == old(controller.registry) && controller.modeChanges == old(controller.modeChanges)
    {
      var raised := watcher.OnDeviceRemoved(d);
      if raised != [] {
        OnKeyboardDisconnected();
      }
    }

    /** A Win32_PnPEntity deletion event. */
    method PnPDeviceRemoved(d: DeviceRecord)
      requires Valid()
      modifies this, watcher, controller
      ensures Removable(d.deviceId, old(watcher.connected)) ==> watcher.connected == old(watcher.connected) - {d.deviceId.value}
      ensures !Removable(d.deviceId, old(watcher.connected)) ==> watcher.connected == old(watcher.connected)
      ensures Valid() && settings == old(settings) && disposed == old(disposed)
      ensures switchTimerInterval == old(switchTimerInterval) && switchTimerEnabled == old(switchTimerEnabled)
      ensures pollTimerEnabled == old(pollTimerEnabled) && controller.useTaskbarAutoHide == old(controller.useTaskbarAutoHide)
      ensures watcher.listening == old(watcher.listening) && watcher.pnpListening == old(watcher.pnpListening)
      ensures watcher.disposed == old(watcher.disposed) && watcher.exclusionUpdates == old(watcher.exclusionUpdates)
      ensures Removable(d.deviceId, old(watcher.connected)) && settings.autoSwitchEnabled ==> lastKeyboardCount == |watcher.connected|
      ensures !(Removable(d.deviceId, old(watcher.connected)) && settings.autoSwitchEnabled) ==> lastKeyboardCount == old(lastKeyboardCount)
      ensures Removable(d.deviceId, old(watcher.connected)) && settings.autoSwitchEnabled && watcher.connected == {} ==>
        controller.registry == Reconciled(old(controller.registry), 0, controller.useTaskbarAutoHide)
        && controller.modeChanges == old(controller.modeChanges) + ReconcileEvents(old(controller.registry), 0)
      ensures !(Removable(d.deviceId, old(watcher.connected)) && settings.autoSwitchEnabled && watcher.connected == {}) ==>
        controller.registry == old(controller.registry) && controller.modeChanges == old(controller.modeChanges)
    {
      var raised := watcher.OnPnPDeviceRemoved(d);
      if raised != [] {
        OnKeyboardDisconnected();
      }
    }

    // ---- Menu actions ----

    /** The desktop-mode menu item: an unconditional switch. */
    method OnDesktopModeClick()
      modifies controller
      ensures controller.registry == PostureWritten(old(controller.registry), false, controller.useTaskbarAutoHide)
      ensures controller.modeChanges == old(controller.modeChanges) + [ModeChangedArgs(true)]
      ensures controller.useTaskbarAutoHide == old(controller.useTaskbarAutoHide)
    {
      var _ := controller.SwitchToDesktopMode();
    }

    /** The tablet-mode menu item: an unconditional switch. */
    method OnTabletModeClick()
      modifies controller
      ensures controller.registry == PostureWritten(old(controller.registry), true, controller.useTaskbarAutoHide)
      ensures controller.modeChanges == old(controller.modeChanges) + [ModeChangedArgs(false)]
      ensures controller.useTaskbarAutoHide == old(controller.useTaskbarAutoHide)
    {
      var _ := controller.SwitchToTabletMode();
    }

    /** The auto-switch menu check box; whether the save succeeds does not matter. */
    method OnAutoSwitchToggled(checked: bool)
      modifies settings
      ensures settings.autoSwitchEnabled == checked
      ensures settings.switchDelayMs == old(settings.switchDelayMs) && settings.excludedDeviceIds == old(settings.excludedDeviceIds)
      ensures settings.showNotifications == old(settings.showNotifications) && settings.useTaskbarAutoHide == old(settings.useTaskbarAutoHide)
      ensures settings.runAtStartup == old(settings.runAtStartup) && settings.startMinimized == old(settings.startMinimized)
    {
      settings.autoSwitchEnabled := checked;
    }

    /**
     * Opening the settings window on the freshly loaded settings `reloaded`, after the
     * user has finished with it. The dialog works on the shared watcher: it hands it the
     * list it loaded (`loadedExclusions`, empty for a null list), rescans it, with
     * `lastScan` the last of its scans, and on a successful save hands it the saved list.
     * The tray then assigns the delay to the switch timer; a delay the timer rejects
     * throws (`threw`), which the application's thread-exception handler reports, and
     * the taskbar option is then not applied.
     */
    method OpenSettingsWindow(reloaded: AppSettings, loadedExclusions: seq<string>, lastScan: Enumeration, savedSuccessfully: bool)
      returns (threw: bool)
      requires Valid()
      modifies this, watcher, controller
      ensures Valid() && settings == reloaded
      ensures watcher.connected == ScanOutcome(lastScan.keyboards, lastScan.pnp, lastScan.failAfter)
      ensures watcher.exclusionUpdates == old(watcher.exclusionUpdates) + [Some(loadedExclusions)]
        + (if savedSuccessfully then [reloaded.excludedDeviceIds] else [])
      ensures watcher.listening == old(watcher.listening) && watcher.pnpListening == old(watcher.pnpListening)
      ensures watcher.disposed == old(watcher.disposed)
      ensures threw <==> savedSuccessfully && IntervalAsWritten(reloaded.switchDelayMs).None?
      ensures savedSuccessfully && !threw ==>
        switchTimerInterval == reloaded.switchDelayMs && controller.useTaskbarAutoHide == reloaded.useTaskbarAutoHide
      ensures !(savedSuccessfully && !threw) ==>
        switchTimerInterval == old(switchTimerInterval) && controller.useTaskbarAutoHide == old(controller.useTaskbarAutoHide)
      ensures switchTimerEnabled == old(switchTimerEnabled) && lastKeyboardCount == old(lastKeyboardCount)
      ensures pollTimerEnabled == old(pollTimerEnabled) && disposed == old(disposed)
      ensures controller.registry == old(controller.registry) && controller.modeChanges == old(controller.modeChanges)
    {
      settings := reloaded;
      watcher.UpdateExcludedDevices(Some(loadedExclusions));
      var _ := watcher.ScanExistingKeyboards(lastScan.keyboards, lastScan.pnp, lastScan.failAfter);
      threw := false;
      if savedSuccessfully {
        watcher.UpdateExcludedDevices(settings.excludedDeviceIds);
        var interval := IntervalAsWritten(settings.switchDelayMs);
        if interval.None? {
          threw := true;
          return;
        }
        switchTimerInterval := interval.value;
        controller.useTaskbarAutoHide := settings.useTaskbarAutoHide;
      }
    }

    /** `Dispose(true)`: stop both timers and dispose the watcher. */
    method Dispose()
      modifies this, watcher
      ensures disposed && !pollTimerEnabled && !switchTimerEnabled
      ensures watcher.disposed && watcher.connected == old(watcher.connected)
      ensures watcher.exclusionUpdates == old(watcher.exclusionUpdates)
      ensures !old(watcher.disposed) ==> !watcher.listening && !watcher.pnpListening
      ensures old(watcher.disposed) ==> watcher.listening == old(watcher.listening) && watcher.pnpListening == old(watcher.pnpListening)
      ensures settings == old(settings) && started == old(started)
      ensures switchTimerInterval == old(switchTimerInterval) && lastKeyboardCount == old(lastKeyboardCount)
      ensures old(Valid()) ==> Valid()
    {
      pollTimerEnabled := false;
      switchTimerEnabled := false;
      watcher.Dispose();
      disposed := true;
    }
  }
}

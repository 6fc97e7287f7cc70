/** The configuration record, shared by reference between the tray and the settings dialogs. */
module Settings {
  import opened Wrappers

  class AppSettings {
    var runAtStartup: bool
    var autoSwitchEnabled: bool
    var switchDelayMs: int
    var startMinimized: bool
    var showNotifications: bool
    var useTaskbarAutoHide: bool
    /** None stands for a JSON `null` list read back from the settings file. */
    var excludedDeviceIds: Option<seq<string>>

    /** `new AppSettings()`, also what `Load` returns for a missing or unreadable file. */
    constructor ()
      ensures !runAtStartup && autoSwitchEnabled && switchDelayMs == 500 && startMinimized
      ensures showNotifications && !useTaskbarAutoHide && excludedDeviceIds == Some([])
    {
      runAtStartup := false;
      autoSwitchEnabled := true;
      switchDelayMs := 500;
      startMinimized := true;
      showNotifications := true;
      useTaskbarAutoHide := false;
      excludedDeviceIds := Some([]);
    }
  }
}

/**
 * `App.OnStartup`: take the settings manager, load the settings once, derive the theme from the loaded
 * record, then open the main window. The singleton `SettingsManager.Instance` is the `manager` argument.
 */
module Startup {
  import opened Wrappers
  import opened SettingsStore
  import opened EoskApp
  import opened Shell

  method OnStartup(app: App, manager: SettingsManager, writeOk: bool) returns (window: MainWindow)
    modifies app`settingsManager, app`currentThemeColor, app`theme, app`titleBarColor
    modifies manager`current, manager`disk
    ensures app.settingsManager == manager
    ensures fresh(manager.current) && manager.current.Value() == LoadedRecord(old(manager.disk), manager.codec)
    ensures manager.disk == FileAfterLoad(old(manager.disk), manager.codec, writeOk)
    ensures app.theme.baseTheme == BaseThemeFor(manager.current.themeType)
    ensures app.titleBarColor == Some(ThemeColorOrPurple(manager.current.themeColor, app.colorConverter))
    ensures match ParsedThemeColor(manager.current.themeColor, app.colorConverter)
            case Some(c) => app.currentThemeColor == c && app.theme.primary == Some(StartupPrimary(c))
            case None => app.currentThemeColor == old(app.currentThemeColor) && app.theme.primary == old(app.theme.primary)
    ensures fresh(window) && window.Valid() && window.app == app && window.state == Open
    ensures window.items == [] && window.content.HomePage?
  {
    app.settingsManager := manager;
    var settings := manager.LoadSettings(writeOk);
    app.InitializeTheme(settings);
    window := new MainWindow(app);
  }
}

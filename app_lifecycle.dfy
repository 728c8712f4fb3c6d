/**
  The `App` object of the Windows uploader as a class whose fields it updates
  in place. Each method performs the steps of the corresponding member of
  Hotsapi.Uploader.Windows/App.xaml.cs in the same order and is proved to end
  in the state that the matching function of module Lifecycle describes.
 */
module App {
  import opened Wrappers
  import opened VersionFormat
  import opened Lifecycle

  class AppLifecycle {
    /** The `Debug` build constant. */
    const debug: bool
    /** The executing assembly's version. */
    const version: Version

    var settings: Settings
    var primary: Settings
    var lastConfig: Option<Settings>
    var managerReady: bool
    var updateAvailable: bool
    var notifications: seq<Notification>
    var startupShortcut: bool
    var trayVisible: bool
    var windowShown: bool
    var log: seq<LogEntry>

    /** The object's fields as one value. */
    function State(): AppState
      reads this
    {
      AppState(settings, primary, lastConfig, managerReady, updateAvailable,
               notifications, startupShortcut, trayVisible, windowShown, log)
    }

    constructor (debug: bool, version: Version, stored: Settings, lastConfig: Option<Settings>, startupShortcut: bool)
      ensures this.debug == debug && this.version == version
      ensures State() == ProcessStart(stored, lastConfig, startupShortcut)
    {
      this.debug := debug;
      this.version := version;
      settings, primary := stored, stored;
      this.lastConfig := lastConfig;
      managerReady, updateAvailable := false, false;
      notifications := [];
      this.startupShortcut := startupShortcut;
      trayVisible, windowShown := false, false;
      log := [];
    }

    method SetUpdateAvailable(value: bool)
      modifies this
      ensures State() == Lifecycle.SetUpdateAvailable(old(State()), value)
      ensures updateAvailable == value
    {
      if updateAvailable == value {
        return;
      }
      updateAvailable := value;
      notifications := notifications + [UpdateAvailableChanged];
    }

    method GetStartWithWindows() returns (r: Option<bool>)
      ensures r == StartWithWindows(State())
    {
      if !managerReady {
        return None;   // `_updateManager` is null
      }
      r := Some(startupShortcut);
    }

    /** Returns false when the missing update manager makes the setter throw. */
    method SetStartWithWindows(value: bool) returns (ok: bool)
      modifies this
      ensures ok == old(managerReady)
      ensures State() == Lifecycle.SetStartWithWindows(old(State()), value)
    {
      if !managerReady {
        return false;
      }
      startupShortcut := true;
      ok := true;
    }

    method SetStartWithWindowsIntended(value: bool) returns (ok: bool)
      modifies this
      ensures ok == old(managerReady)
      ensures State() == Lifecycle.SetStartWithWindowsIntended(old(State()), value)
    {
      if !managerReady {
        return false;
      }
      startupShortcut := value;
      ok := true;
    }

    /** Returns false when the copy throws; the exception propagates to the caller. */
    method BackupSettings(copyFails: bool) returns (ok: bool)
      modifies this
      ensures ok == !copyFails
      ensures State() == Lifecycle.BackupSettings(old(State()), copyFails)
      ensures ok ==> lastConfig == Some(primary)
    {
      primary := settings;                      // Settings.Save()
      if copyFails {
        return false;
      }
      lastConfig := Some(primary);              // File.Copy(settingsFile, destination, true)
      ok := true;
    }

    method RestoreSettings(outcome: RestoreOutcome)
      modifies this
      ensures State() == Lifecycle.RestoreSettings(old(State()), outcome)
      ensures !settings.upgradeRequired && primary == settings
    {
      if lastConfig.Some? {
        if outcome.CopyFailed? {
          log := log + [SettingsRestoreError];
        } else {
          primary := lastConfig.value;          // File.Copy(sourceFile, destFile, true)
          if outcome.ReloadFailed? {
            log := log + [SettingsRestoreError];
          } else {
            settings := primary;                // Settings.Reload()
            if outcome.UpgradeFailed? {
              log := log + [SettingsRestoreError];
            } else {
              settings := outcome.values;       // Settings.Upgrade()
            }
          }
        }
      }
      settings := settings.(upgradeRequired := false);
      primary := settings;                      // Settings.Save()
    }

    method CheckForUpdates(managerFails: bool, query: UpdateQuery, copyFails: bool)
      modifies this
      ensures State() == Lifecycle.CheckForUpdates(old(State()), debug, managerFails, query, copyFails)
    {
      if debug || !settings.autoUpdate {
        return;
      }
      if !managerReady {
        if managerFails {
          log := log + [UpdateCheckWarning];
          return;
        }
        managerReady := true;
        notifications := notifications + [StartWithWindowsChanged];
      }
      match query
      case QueryFailed =>
        log := log + [UpdateCheckWarning];
      case NoRelease =>
      case NewRelease =>
        SetUpdateAvailable(true);
        var ok := BackupSettings(copyFails);
        if !ok {
          log := log + [UpdateCheckWarning];
        }
    }

    /** `Application_Startup`, with the first update check it runs. */
    method Startup(args: seq<string>, restore: RestoreOutcome, managerFails: bool, query: UpdateQuery, copyFails: bool)
      modifies this
      ensures State() == Lifecycle.CheckForUpdates(Lifecycle.Startup(old(State()), version, args, restore),
                                                   debug, managerFails, query, copyFails)
    {
      ghost var before := State();
      LogStartAndRestore(restore);
      ShowInitialPresentation(args);
      ghost var started := State();
      assert started == Lifecycle.Startup(before, version, args, restore);
      CheckForUpdates(managerFails, query, copyFails);
    }

    /** The first steps of `Application_Startup`. */
    method LogStartAndRestore(restore: RestoreOutcome)
      modifies this
      ensures State() == LogAndRestore(old(State()), version, restore)
    {
      log := log + [AppStarted(VersionString(version))];
      if settings.upgradeRequired {
        RestoreSettings(restore);
      }
    }

    /** The tray set-up and visibility branch of `Application_Startup`. */
    method ShowInitialPresentation(args: seq<string>)
      modifies this
      ensures State() == Lifecycle.ShowInitialPresentation(old(State()), args)
    {
      SetupTrayIcon();
      if StartMinimized(args, settings.minimizeToTray) {
        trayVisible := true;
      } else {
        windowShown := true;                    // new MainWindow().Show()
      }
    }

    /** Creates the tray icon, hidden. */
    method SetupTrayIcon()
      modifies this
      ensures State() == old(State()).(trayVisible := false)
    {
      trayVisible := false;
    }

    method TrayClicked()
      modifies this
      ensures State() == TrayClick(old(State()))
    {
      windowShown := true;
      trayVisible := false;
    }

    /** `Application_Exit`: back up the settings. */
    method Exit(copyFails: bool) returns (ok: bool)
      modifies this
      ensures ok == !copyFails
      ensures State() == Lifecycle.BackupSettings(old(State()), copyFails)
    {
      ok := BackupSettings(copyFails);
    }
  }
}

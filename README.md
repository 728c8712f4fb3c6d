# Hotsapi uploader: application lifecycle

This project models the lifecycle coordinator of the Windows uploader: the `App` object
(`Hotsapi.Uploader.Windows/App.xaml.cs`). The coordinator does the following:
- At startup it restores the settings backup when an upgrade is pending.
- It decides whether the process starts with a main window or only the tray icon.
- The tray icon's click handler switches to the main window.
- It runs a self-update check. A release found by the check raises the `UpdateAvailable` property and backs up the settings.
- It exposes a `VersionString` label and a `StartWithWindows` property.

The model has three parts:

- `VersionFormat` (version_format.dfy) is the `VersionString` label `vMAJOR.MINOR[.BUILD]` as a pure function.
  - A parser for the label is proved to invert it, so distinct versions get distinct labels.
  - Two sample versions are checked: 1.4.0 gives `v1.4` and 1.4.2 gives `v1.4.2`.
- `Lifecycle` (lifecycle.dfy) is the coordinator on values. `AppState` holds:
  - the in-memory settings,
  - the settings store file and the `last.config` backup,
  - whether the update manager exists, and the `UpdateAvailable` flag,
  - the `PropertyChanged` notifications raised so far,
  - the login shortcut,
  - the tray icon's visibility and whether a main window was shown,
  - the log.

  Each operation is a function whose contract states what changes and what does not.
  Whatever the code cannot see is a parameter: does a copy, a reload or an upgrade throw, can the update manager be built, does `UpdateApp` return a release.
  `Run` applies the events that follow startup: tray clicks, hourly ticks and writes to `StartWithWindows`. The lemmas about `Run` state what no sequence of events can undo.
- `App.AppLifecycle` (app_lifecycle.dfy) is the same coordinator as a class whose fields are updated in place.
  - Each method takes the steps of the C# member in the same order.
  - Each method is proved to end in the state the `Lifecycle` function gives.

Files are modelled as the settings values they hold:
- `Settings.Save` copies the in-memory settings to the store.
- `Settings.Reload` copies the store to memory.
- A file copy is an assignment between the store and the backup.

The model follows the code in these places:
- `RestoreSettings` clears `UpgradeRequired` only in its unconditional tail, which ends with `Settings.Save()`.
  - So after a restore the model's store equals the restored values with `UpgradeRequired` false. It is not a plain copy of the backup.
  - In the model, if `Settings.Reload` throws after the copy, the final save writes the old in-memory values over the copied file. This follows from modelling `Save` as a whole-store write (see "Left out").
  - With no backup, the store changes only in `UpgradeRequired`, provided it held the in-memory settings before.
- The backup that `CheckForUpdates` takes after finding a release sits inside that method's `try`. A failing copy there is logged as a warning and `UpdateAvailable` stays true. Only the call in `Application_Exit` lets a backup failure escape.

## Model

| member | source | states |
|---|---|---|
| VersionFormat.NatToString | Hotsapi.Uploader.Windows/App.xaml.cs:54 | a number is written as one or more decimal digits, with a leading zero only for zero |
| VersionFormat.IntToString | Hotsapi.Uploader.Windows/App.xaml.cs:54 | an integer's rendering never contains a dot, and starts with `-` exactly when the integer is negative |
| VersionFormat.VersionString | Hotsapi.Uploader.Windows/App.xaml.cs:50-56 | the label starts with `v` |
| VersionFormat.VersionStringFields | Hotsapi.Uploader.Windows/App.xaml.cs:54 | after the `v`, the dot-separated fields are the major, the minor and, only when the build is not zero, the build |
| VersionFormat.NatRoundTrip | Hotsapi.Uploader.Windows/App.xaml.cs:54 | reading back a number's digits gives the number |
| VersionFormat.IntRoundTrip | Hotsapi.Uploader.Windows/App.xaml.cs:54 | reading back an integer's rendering, sign included, gives the integer |
| VersionFormat.VersionStringRoundTrip | Hotsapi.Uploader.Windows/App.xaml.cs:54 | parsing the label gives back the version it was made from |
| VersionFormat.VersionStringInjective | Hotsapi.Uploader.Windows/App.xaml.cs:54 | two versions with the same label are equal |
| VersionFormat.VersionStringExamples | Hotsapi.Uploader.Windows/App.xaml.cs:54 | 1.4.0 gives `v1.4` and 1.4.2 gives `v1.4.2` |
| Lifecycle.SetUpdateAvailable | Hotsapi.Uploader.Windows/App.xaml.cs:42-48 | afterwards the flag holds the value. Setting the current value changes nothing. A change stores the value and appends exactly one `UpdateAvailable` notification, and nothing else changes |
| App.AppLifecycle.SetUpdateAvailable | Hotsapi.Uploader.Windows/App.xaml.cs:42-48 | the setter's in-place steps end in the state `Lifecycle.SetUpdateAvailable` gives |
| Lifecycle.BackupSettings | Hotsapi.Uploader.Windows/App.xaml.cs:150-156 | the store holds the in-memory settings. If the copy succeeds, the backup equals the store. If it throws, the backup is untouched. Nothing else changes |
| App.AppLifecycle.BackupSettings | Hotsapi.Uploader.Windows/App.xaml.cs:150-156 | saves, then copies. It reports failure exactly when the copy throws, and otherwise leaves backup == store |
| Lifecycle.BackupIdempotent | Hotsapi.Uploader.Windows/App.xaml.cs:152-155 | two successful backups in a row leave the same state as one |
| Lifecycle.RestoreFromBackup | Hotsapi.Uploader.Windows/App.xaml.cs:167-177 | the first of copy, reload and upgrade that throws ends the guarded block with one logged error. The store is unchanged when the copy fails and equals the backup otherwise. The in-memory settings are then the old ones (copy or reload failed), the backup's (upgrade failed), or the upgraded ones |
| Lifecycle.LogAndRestore | Hotsapi.Uploader.Windows/App.xaml.cs:84-87 | logs `App v… started` first. With a pending upgrade, the settings and store end exactly as `RestoreSettings` leaves them. Without one, only the log changes. Backup file, update state and presentation are untouched |
| Lifecycle.ClearUpgradeAndSave | Hotsapi.Uploader.Windows/App.xaml.cs:179-180 | `UpgradeRequired` becomes false and the store equals the in-memory settings. Nothing else changes |
| Lifecycle.RestoreSettings | Hotsapi.Uploader.Windows/App.xaml.cs:162-181 | on every path it ends with `UpgradeRequired` false and store == settings. With no backup, only `UpgradeRequired` changes, so an in-sync store is unchanged apart from that flag. With a backup, the store holds the backup's or the upgraded values (flag cleared) when reload succeeded. Any failure logs one error. The backup file, update state and presentation are untouched |
| App.AppLifecycle.RestoreSettings | Hotsapi.Uploader.Windows/App.xaml.cs:162-181 | the in-place steps end in `Lifecycle.RestoreSettings`'s state, with `UpgradeRequired` false and store == settings |
| Lifecycle.CheckForUpdates | Hotsapi.Uploader.Windows/App.xaml.cs:125-144 | a no-op in a debug build or with auto-update off. The manager is built only when none exists. A failed construction or query changes nothing but the log (one warning) and leaves the files alone. A release sets `UpdateAvailable` and then saves and backs up, and a failing backup copy still leaves the flag true. Notifications: one `StartWithWindows` on first construction, then one `UpdateAvailable` on a change. Settings and presentation are untouched |
| App.AppLifecycle.CheckForUpdates | Hotsapi.Uploader.Windows/App.xaml.cs:125-144 | the in-place steps, including the calls to the setter and to `BackupSettings`, end in `Lifecycle.CheckForUpdates`'s state |
| App.AppLifecycle.GetStartWithWindows | Hotsapi.Uploader.Windows/App.xaml.cs:59-62 | the getter reports the login shortcut, and fails (None) while the update manager does not exist |
| Lifecycle.SetStartWithWindows | Hotsapi.Uploader.Windows/App.xaml.cs:63-71 | as written: once the manager exists, the getter reads true after any write, false included. Without a manager nothing changes. Only the shortcut can change |
| App.AppLifecycle.SetStartWithWindows | Hotsapi.Uploader.Windows/App.xaml.cs:63-71 | fails exactly when the manager is missing, and otherwise ends in `Lifecycle.SetStartWithWindows`'s state |
| Lifecycle.SetStartWithWindowsIntended | Hotsapi.Uploader.Windows/App.xaml.cs:66-70 | corrected: once the manager exists, the getter reads back the value written |
| App.AppLifecycle.SetStartWithWindowsIntended | Hotsapi.Uploader.Windows/App.xaml.cs:66-70 | fails exactly when the manager is missing, and otherwise ends in the corrected setter's state |
| Lifecycle.ShowInitialPresentation | Hotsapi.Uploader.Windows/App.xaml.cs:92-96 | the tray is visible exactly when `--autorun` is an argument and `MinimizeToTray` is on. Otherwise a main window is shown. Nothing else changes |
| App.AppLifecycle.ShowInitialPresentation | Hotsapi.Uploader.Windows/App.xaml.cs:88-96 | creating the hidden tray icon and then branching ends in `Lifecycle.ShowInitialPresentation`'s state |
| App.AppLifecycle.SetupTrayIcon | Hotsapi.Uploader.Windows/App.xaml.cs:113-118 | the tray icon is created invisible, and nothing else changes |
| App.AppLifecycle.LogStartAndRestore | Hotsapi.Uploader.Windows/App.xaml.cs:84-87 | logs the started version, then restores only when `UpgradeRequired` is set |
| Lifecycle.Startup | Hotsapi.Uploader.Windows/App.xaml.cs:84-96 | afterwards `UpgradeRequired` is false. With a pending upgrade, the settings and store are exactly those `RestoreSettings` produces, so a present backup's values reach the store and an absent backup changes only `UpgradeRequired`. Without a pending upgrade, the settings and store are unchanged. The presentation follows the restored `MinimizeToTray`. The first new log line is `App v… started`. Update state, notifications and backup file are unchanged |
| App.AppLifecycle.Startup | Hotsapi.Uploader.Windows/App.xaml.cs:80-104 | the startup steps, followed by the first update check, end in `CheckForUpdates(Startup(…))` |
| Lifecycle.TrayClick | Hotsapi.Uploader.Windows/App.xaml.cs:119-122 | a main window is shown and the tray is hidden, and nothing else changes |
| App.AppLifecycle.TrayClicked | Hotsapi.Uploader.Windows/App.xaml.cs:119-122 | the handler ends in `Lifecycle.TrayClick`'s state |
| App.AppLifecycle.Exit | Hotsapi.Uploader.Windows/App.xaml.cs:106-111 | exit backs up the settings, and fails exactly when the copy throws |
| App.AppLifecycle.constructor | Hotsapi.Uploader.Windows/App.xaml.cs:74-77 | a new process has settings loaded from the store, no update manager, no update available, no tray icon and no window |
| Lifecycle.StepNotifications | Hotsapi.Uploader.Windows/App.xaml.cs:131-139 | an event appends at most a `StartWithWindows` and then an `UpdateAvailable` notification, each only when its flag turns on |
| Lifecycle.RunMonotone | Hotsapi.Uploader.Windows/App.xaml.cs:98-103 | after startup no sequence of ticks, clicks and shortcut writes changes the settings, hides the window, re-shows the tray, clears `UpdateAvailable` or drops the manager |
| Lifecycle.RunNotifiesOnce | Hotsapi.Uploader.Windows/App.xaml.cs:42-48 | over any run, each notification is raised once exactly when its flag turns on, and never otherwise |
| Lifecycle.RunConcat | Hotsapi.Uploader.Windows/App.xaml.cs:100-103 | running two event sequences one after the other is running their concatenation |
| Lifecycle.TrayNeedsClick | Hotsapi.Uploader.Windows/App.xaml.cs:119-122 | without a tray click the tray keeps its visibility |
| Lifecycle.WindowNeedsClick | Hotsapi.Uploader.Windows/App.xaml.cs:119-122 | without a tray click no window appears after startup |
| Lifecycle.TrayClickOneWay | Hotsapi.Uploader.Windows/App.xaml.cs:119-122 | after a tray click, whatever follows, the window stays shown and the tray stays hidden. Nothing leads back from window to tray |
| Lifecycle.AutorunStartsInTray | Hotsapi.Uploader.Windows/App.xaml.cs:92-93 | an autorun launch with `MinimizeToTray` shows the tray and no window, and stays so until the tray is clicked |
| Lifecycle.OtherLaunchShowsWindow | Hotsapi.Uploader.Windows/App.xaml.cs:94-96 | any other launch shows a main window and hides the tray, and stays so |
| Lifecycle.UpgradeHandledOnce | Hotsapi.Uploader.Windows/App.xaml.cs:85-87 | after startup `UpgradeRequired` is false and no later event sets it again, so the restore runs at most once per process |

## Left out

- The exception handlers (`SetExceptionHandlers`, `LogAndDisplay`) are left out. They are runtime event wiring, and the message box is UI.
- The hourly `DispatcherTimer` is reduced to the `TimerTick` event of `Run`. Events apply one after another, so overlapping `async void` ticks are not modelled.
- `Manager`, `ReplayStorage`, `Manager.Start()` and `BindingOperations.EnableCollectionSynchronization` are left out. Their source is not part of this model, and the last is about threads.
- `ShutdownMode`, icon extraction and `MainWindow` are not modelled beyond the booleans `trayVisible` and `windowShown`. Showing a second window is not distinguished from showing the first.
- Squirrel's `UpdateManager` is reduced to outcome parameters: construction fails or not, and `UpdateApp` throws, returns null, or returns a release. Downloading and applying the release is not modelled. The login shortcut is a boolean.
- `Settings.Upgrade` reads earlier versions' settings files. It is a parameter here, `Upgraded(values)`.
- RestoreSettings, BackupSettings: `Save` is modelled as overwriting the whole store with the in-memory settings, and `Reload` as an immediate read of the whole store. The .NET settings provider writes only the properties changed since loading and reloads lazily. So where a step fails part-way (a `Reload` that throws after the copy), the model does not promise what the real store holds.
- A throwing `Settings.Save()` is not modelled, in `BackupSettings` or in the tail of `RestoreSettings`. Only the file copies, the reload and the upgrade can fail.
- `Directory.CreateDirectory` failing is folded into `CopyFailed`: both end the guarded block before anything is written.
- `Application_Exit`: the disposal of the update manager and the tray icon is not modelled.
- Paths (`ConfigurationManager`, `AppDir`) are fixed names, and the version is three numbers. The negative sign of an undefined build (-1) is written `-`, whatever the culture.
- `PropertyChanged` is recorded whether or not anyone subscribes.
- The log entry for a started app records the label, not the logger's formatting.

## Findings

| source | as written | input that shows it | evidently intended | confidence | as-written member | corrected member |
|---|---|---|---|---|---|---|
| Hotsapi.Uploader.Windows/App.xaml.cs:63-71 | the setter always creates the login shortcut and returns. The branch that removes it is unreachable | write `StartWithWindows = false` after the update manager exists: the getter still reads true | writing false removes the shortcut, writing true creates it | low, not executed; the early `return` may be a deliberate workaround | Lifecycle.SetStartWithWindows | Lifecycle.SetStartWithWindowsIntended |

`Run` keeps the setter as written, because it describes the program as shipped. No lemma about `Run` depends on the login shortcut.

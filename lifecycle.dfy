/**
  The application-lifecycle coordinator of the Windows uploader, on values.

  `AppState` is everything the coordinator reads or writes: the in-memory
  settings, the two settings files, the update-check flags, the property-change
  notifications raised so far, the "run at login" shortcut, the tray icon and
  the main window, and the log. Each operation of the coordinator is a function
  from the state before to the state after; what the outside world decides
  (whether a copy throws, whether the update server answers) is a parameter.
  The class in app_lifecycle.dfy performs the same operations step by step and
  is proved to agree with these functions.
 */
module Lifecycle {
  import opened Wrappers
  import opened VersionFormat

  /** The user settings the coordinator uses. */
  datatype Settings = Settings(
    upgradeRequired: bool,
    autoUpdate: bool,
    minimizeToTray: bool,
    updateRepository: string)

  /** The property names for which `PropertyChanged` is raised. */
  datatype Notification = UpdateAvailableChanged | StartWithWindowsChanged

  datatype LogEntry =
    | AppStarted(version: string)   // "App {VersionString} started"
    | SettingsRestoreError          // "Error upgrading settings"
    | UpdateCheckWarning            // "Error checking for updates"

  /** How far the guarded block of `RestoreSettings` gets when `last.config` exists. */
  datatype RestoreOutcome =
    | CopyFailed                    // creating the directory or copying the file throws
    | ReloadFailed                  // the copy lands, `Settings.Reload` throws
    | UpgradeFailed                 // copy and reload succeed, `Settings.Upgrade` throws
    | Upgraded(values: Settings)    // all succeed; `Settings.Upgrade` leaves these values

  /** What `UpdateApp` does once the update manager exists. */
  datatype UpdateQuery = QueryFailed | NoRelease | NewRelease

  datatype AppState = AppState(
    settings: Settings,              // the in-memory settings object
    primary: Settings,               // the per-user settings store file
    lastConfig: Option<Settings>,    // the backup file `..\last.config`, None when absent
    managerReady: bool,              // the update manager has been constructed
    updateAvailable: bool,
    notifications: seq<Notification>,
    startupShortcut: bool,           // a login shortcut exists for the executable
    trayVisible: bool,
    windowShown: bool,
    log: seq<LogEntry>)

  /** The state when the process starts: settings loaded from the store, no
      update manager, no tray icon, no window. */
  function ProcessStart(stored: Settings, lastConfig: Option<Settings>, startupShortcut: bool): AppState {
    AppState(stored, stored, lastConfig, false, false, [], startupShortcut, false, false, [])
  }

  // ---------------------------------------------------------------------------
  // Update state

  /** The `UpdateAvailable` setter: change-only, one notification per change. */
  function SetUpdateAvailable(s: AppState, value: bool): (r: AppState)
    ensures r.updateAvailable == value
    ensures s.updateAvailable == value ==> r == s
    ensures s.updateAvailable != value ==>
              r == s.(updateAvailable := value, notifications := s.notifications + [UpdateAvailableChanged])
  {
    if s.updateAvailable == value then s
    else s.(updateAvailable := value, notifications := s.notifications + [UpdateAvailableChanged])
  }

  // ---------------------------------------------------------------------------
  // Settings migration

  /** `BackupSettings`: save the settings to the store, then copy the store
      over `last.config`. When the copy throws, the save has still happened. */
  function BackupSettings(s: AppState, copyFails: bool): (r: AppState)
    ensures r.primary == s.settings
    ensures !copyFails ==> r.lastConfig == Some(r.primary)
    ensures copyFails ==> r.lastConfig == s.lastConfig
    ensures r.(primary := s.primary, lastConfig := s.lastConfig) == s
  {
    var saved := s.(primary := s.settings);
    if copyFails then saved else saved.(lastConfig := Some(saved.primary))
  }

  /** The guarded block of `RestoreSettings` for an existing `last.config`
      holding `backup`: copy it over the store, reload, upgrade; the first
      step that throws ends the block with an error logged. */
  function RestoreFromBackup(s: AppState, backup: Settings, outcome: RestoreOutcome): (r: AppState)
    ensures outcome.CopyFailed? || outcome.ReloadFailed? ==> r.settings == s.settings
    ensures outcome.UpgradeFailed? ==> r.settings == backup
    ensures outcome.Upgraded? ==> r.settings == outcome.values
    ensures outcome.CopyFailed? ==> r.primary == s.primary
    ensures !outcome.CopyFailed? ==> r.primary == backup
    ensures r.log == s.log + (if outcome.Upgraded? then [] else [SettingsRestoreError])
    ensures r.(settings := s.settings, primary := s.primary, log := s.log) == s
  {
    if outcome.CopyFailed? then s.(log := s.log + [SettingsRestoreError])
    else
      var copied := s.(primary := backup);
      if outcome.ReloadFailed? then copied.(log := s.log + [SettingsRestoreError])
      else
        var reloaded := copied.(settings := copied.primary);
        if outcome.UpgradeFailed? then reloaded.(log := s.log + [SettingsRestoreError])
        else reloaded.(settings := outcome.values)
  }

  /** The unconditional tail of `RestoreSettings`: clear `UpgradeRequired`, save. */
  function ClearUpgradeAndSave(s: AppState): (r: AppState)
    ensures !r.settings.upgradeRequired && r.primary == r.settings
    ensures r.settings == s.settings.(upgradeRequired := false)
    ensures r.(settings := s.settings, primary := s.primary) == s
  {
    var cleared := s.(settings := s.settings.(upgradeRequired := false));
    cleared.(primary := cleared.settings)
  }

  /** `RestoreSettings`: when `last.config` exists, copy it over the store,
      reload and upgrade the settings, logging and swallowing any failure;
      in every case then clear `UpgradeRequired` and save. */
  function RestoreSettings(s: AppState, outcome: RestoreOutcome): (r: AppState)
    ensures !r.settings.upgradeRequired && r.primary == r.settings
    ensures s.lastConfig.None? ==> r.settings == s.settings.(upgradeRequired := false) && r.log == s.log
    ensures s.lastConfig.None? && s.primary == s.settings ==> r.primary == s.primary.(upgradeRequired := false)
    ensures s.lastConfig.Some? && outcome.UpgradeFailed? ==> r.primary == s.lastConfig.value.(upgradeRequired := false)
    ensures s.lastConfig.Some? && outcome.Upgraded? ==> r.primary == outcome.values.(upgradeRequired := false)
    ensures s.lastConfig.Some? && (outcome.CopyFailed? || outcome.ReloadFailed?) ==>
              r.settings == s.settings.(upgradeRequired := false)
    ensures s.lastConfig.Some? ==> r.log == s.log + (if outcome.Upgraded? then [] else [SettingsRestoreError])
    ensures r.(settings := s.settings, primary := s.primary, log := s.log) == s
  {
    var tried :=
      match s.lastConfig
      case None => s
      case Some(backup) => RestoreFromBackup(s, backup, outcome);
    ClearUpgradeAndSave(tried)
  }

  // ---------------------------------------------------------------------------
  // Update check

  /** Whether a check does anything at all: not a debug build and auto-update on. */
  predicate UpdatesEnabled(s: AppState, debug: bool) {
    !debug && s.settings.autoUpdate
  }

  /** Whether a check reaches `UpdateApp`: enabled, and the manager exists or
      its construction succeeds. */
  predicate QueryReached(s: AppState, debug: bool, managerFails: bool) {
    UpdatesEnabled(s, debug) && (s.managerReady || !managerFails)
  }

  /** Whether a check finds a release. */
  predicate ReleaseFound(s: AppState, debug: bool, managerFails: bool, query: UpdateQuery) {
    QueryReached(s, debug, managerFails) && query.NewRelease?
  }

  /** `CheckForUpdates`: construct the update manager if there is none, ask
      for a release, and on a release set `UpdateAvailable` and back up the
      settings; every exception in that block is logged as a warning. */
  function CheckForUpdates(s: AppState, debug: bool, managerFails: bool, query: UpdateQuery, copyFails: bool): (r: AppState)
    ensures !UpdatesEnabled(s, debug) ==> r == s
    ensures r.managerReady == (s.managerReady || QueryReached(s, debug, managerFails))
    ensures r.updateAvailable == (s.updateAvailable || ReleaseFound(s, debug, managerFails, query))
    ensures ReleaseFound(s, debug, managerFails, query) ==>
              r.primary == s.settings && r.lastConfig == (if copyFails then s.lastConfig else Some(s.settings))
    ensures !ReleaseFound(s, debug, managerFails, query) ==> r.primary == s.primary && r.lastConfig == s.lastConfig
    ensures r.notifications == s.notifications
              + (if !s.managerReady && r.managerReady then [StartWithWindowsChanged] else [])
              + (if !s.updateAvailable && r.updateAvailable then [UpdateAvailableChanged] else [])
    ensures var failed := UpdatesEnabled(s, debug) &&
              (!QueryReached(s, debug, managerFails) || query.QueryFailed? || (query.NewRelease? && copyFails));
            r.log == s.log + (if failed then [UpdateCheckWarning] else [])
    ensures r.settings == s.settings && r.startupShortcut == s.startupShortcut
    ensures r.trayVisible == s.trayVisible && r.windowShown == s.windowShown
  {
    if !UpdatesEnabled(s, debug) then s
    else if !s.managerReady && managerFails then s.(log := s.log + [UpdateCheckWarning])
    else
      var ready :=
        if s.managerReady then s
        else s.(managerReady := true, notifications := s.notifications + [StartWithWindowsChanged]);
      match query
      case QueryFailed => ready.(log := ready.log + [UpdateCheckWarning])
      case NoRelease => ready
      case NewRelease =>
        var backedUp := BackupSettings(SetUpdateAvailable(ready, true), copyFails);
        if copyFails then backedUp.(log := backedUp.log + [UpdateCheckWarning]) else backedUp
  }

  // ---------------------------------------------------------------------------
  // "Run at login"

  /** The `StartWithWindows` getter; None when it would dereference a missing
      update manager. */
  function StartWithWindows(s: AppState): Option<bool> {
    if s.managerReady then Some(s.startupShortcut) else None
  }

  /** The `StartWithWindows` setter as written: it always creates the login
      shortcut, whatever value it is given. */
  function SetStartWithWindows(s: AppState, value: bool): (r: AppState)
    ensures s.managerReady ==> StartWithWindows(r) == Some(true)
    ensures !s.managerReady ==> r == s
    ensures r.(startupShortcut := s.startupShortcut) == s
  {
    if s.managerReady then s.(startupShortcut := true) else s
  }

  /** The setter as its unreachable branch shows it was meant: create the
      shortcut for true, remove it for false. */
  function SetStartWithWindowsIntended(s: AppState, value: bool): (r: AppState)
    ensures s.managerReady ==> StartWithWindows(r) == Some(value)
    ensures !s.managerReady ==> r == s
    ensures r.(startupShortcut := s.startupShortcut) == s
  {
    if s.managerReady then s.(startupShortcut := value) else s
  }

  // ---------------------------------------------------------------------------
  // Startup and presentation

  /** The startup presentation rule: tray only for an autorun launch with
      "minimize to tray" on. */
  predicate StartMinimized(args: seq<string>, minimizeToTray: bool) {
    "--autorun" in args && minimizeToTray
  }

  /** The first steps of `Application_Startup`: log the version, then restore
      the settings when an upgrade is pending. */
  function LogAndRestore(s: AppState, version: Version, restore: RestoreOutcome): (r: AppState)
    ensures s.settings.upgradeRequired ==>
              r.settings == RestoreSettings(s, restore).settings && r.primary == RestoreSettings(s, restore).primary
    ensures !s.settings.upgradeRequired ==> r == s.(log := s.log + [AppStarted(VersionString(version))])
    ensures |r.log| > |s.log| && r.log[..|s.log| + 1] == s.log + [AppStarted(VersionString(version))]
    ensures r.lastConfig == s.lastConfig && r.managerReady == s.managerReady && r.updateAvailable == s.updateAvailable
    ensures r.notifications == s.notifications && r.startupShortcut == s.startupShortcut
    ensures r.trayVisible == s.trayVisible && r.windowShown == s.windowShown
  {
    var logged := s.(log := s.log + [AppStarted(VersionString(version))]);
    if logged.settings.upgradeRequired then RestoreSettings(logged, restore) else logged
  }

  /** The presentation step of `Application_Startup`: the tray icon is
      created hidden, then either made visible or a main window is shown. */
  function ShowInitialPresentation(s: AppState, args: seq<string>): (r: AppState)
    ensures r.trayVisible == StartMinimized(args, s.settings.minimizeToTray)
    ensures r.windowShown == (s.windowShown || !StartMinimized(args, s.settings.minimizeToTray))
    ensures r.(trayVisible := s.trayVisible, windowShown := s.windowShown) == s
  {
    var withTray := s.(trayVisible := false);
    if StartMinimized(args, withTray.settings.minimizeToTray) then withTray.(trayVisible := true)
    else withTray.(windowShown := true)
  }

  /** `Application_Startup` up to the first update check: log the version,
      restore the settings when an upgrade is pending, create the hidden tray
      icon, then show either the tray icon or a main window. The presentation
      follows the settings as restored. */
  function Startup(s: AppState, version: Version, args: seq<string>, restore: RestoreOutcome): (r: AppState)
    ensures !r.settings.upgradeRequired && r.lastConfig == s.lastConfig
    ensures !s.settings.upgradeRequired ==> r.settings == s.settings && r.primary == s.primary
    ensures s.settings.upgradeRequired ==>
              r.settings == RestoreSettings(s, restore).settings && r.primary == RestoreSettings(s, restore).primary
    ensures r.trayVisible == StartMinimized(args, r.settings.minimizeToTray)
    ensures r.windowShown == (s.windowShown || !StartMinimized(args, r.settings.minimizeToTray))
    ensures |r.log| > |s.log| && r.log[..|s.log| + 1] == s.log + [AppStarted(VersionString(version))]
    ensures r.managerReady == s.managerReady && r.updateAvailable == s.updateAvailable
    ensures r.notifications == s.notifications && r.startupShortcut == s.startupShortcut
  {
    ShowInitialPresentation(LogAndRestore(s, version, restore), args)
  }

  /** The tray icon's click handler: show a main window, hide the icon. */
  function TrayClick(s: AppState): (r: AppState)
    ensures r.windowShown && !r.trayVisible
    ensures r.(windowShown := s.windowShown, trayVisible := s.trayVisible) == s
  {
    s.(windowShown := true, trayVisible := false)
  }

  // ---------------------------------------------------------------------------
  // After startup: the events the coordinator reacts to

  datatype Event =
    | TrayClicked
    | TimerTick(managerFails: bool, query: UpdateQuery, copyFails: bool)   // the hourly check
    | StartWithWindowsSet(value: bool)                                     // the UI writes the property

  function Step(s: AppState, debug: bool, e: Event): AppState {
    match e
    case TrayClicked => TrayClick(s)
    case TimerTick(managerFails, query, copyFails) => CheckForUpdates(s, debug, managerFails, query, copyFails)
    case StartWithWindowsSet(value) => SetStartWithWindows(s, value)
  }

  function Run(s: AppState, debug: bool, events: seq<Event>): AppState
    decreases |events|
  {
    if events == [] then s else Run(Step(s, debug, events[0]), debug, events[1..])
  }

  /** How many times `n` was raised. */
  function Count(ns: seq<Notification>, n: Notification): nat {
    if ns == [] then 0 else (if ns[0] == n then 1 else 0) + Count(ns[1..], n)
  }

  // ---------------------------------------------------------------------------
  // Lemmas

  /** Two backups in a row leave the files as one does. */
  lemma BackupIdempotent(s: AppState)
    ensures BackupSettings(BackupSettings(s, false), false) == BackupSettings(s, false)
  {
  }

  lemma {:induction false} RunConcat(s: AppState, debug: bool, a: seq<Event>, b: seq<Event>)
    ensures Run(s, debug, a + b) == Run(Run(s, debug, a), debug, b)
    decreases |a|
  {
    if a == [] {
      assert a + b == b;
    } else {
      assert (a + b)[0] == a[0] && (a + b)[1..] == a[1..] + b;
      RunConcat(Step(s, debug, a[0]), debug, a[1..], b);
    }
  }

  /** After startup nothing changes the settings, hides the window, shows the
      tray icon again, clears `UpdateAvailable` or drops the update manager. */
  lemma {:induction false} RunMonotone(s: AppState, debug: bool, events: seq<Event>)
    ensures var r := Run(s, debug, events);
            && r.settings == s.settings
            && (s.windowShown ==> r.windowShown)
            && (!s.trayVisible ==> !r.trayVisible)
            && (s.updateAvailable ==> r.updateAvailable)
            && (s.managerReady ==> r.managerReady)
    decreases |events|
  {
    if events != [] {
      RunMonotone(Step(s, debug, events[0]), debug, events[1..]);
    }
  }

  /** Without a click the tray icon keeps its visibility. */
  lemma {:induction false} TrayNeedsClick(s: AppState, debug: bool, events: seq<Event>)
    requires TrayClicked !in events
    ensures Run(s, debug, events).trayVisible == s.trayVisible
    decreases |events|
  {
    if events != [] {
      assert events[0] in events;
      assert forall e :: e in events[1..] ==> e in events;
      TrayNeedsClick(Step(s, debug, events[0]), debug, events[1..]);
    }
  }

  /** A tray click is one-way: whatever follows, the window stays shown and
      the tray icon stays hidden. */
  lemma TrayClickOneWay(s: AppState, debug: bool, before: seq<Event>, after: seq<Event>)
    ensures var r := Run(s, debug, before + [TrayClicked] + after);
            r.windowShown && !r.trayVisible
  {
    RunConcat(s, debug, before + [TrayClicked], after);
    RunConcat(s, debug, before, [TrayClicked]);
    var clicked := Run(s, debug, before + [TrayClicked]);
    assert clicked == TrayClick(Run(s, debug, before));
    RunMonotone(clicked, debug, after);
  }

  lemma {:induction false} CountAppend(a: seq<Notification>, b: seq<Notification>, n: Notification)
    ensures Count(a + b, n) == Count(a, n) + Count(b, n)
    decreases |a|
  {
    if a == [] {
      assert a + b == b;
    } else {
      assert (a + b)[0] == a[0] && (a + b)[1..] == a[1..] + b;
      CountAppend(a[1..], b, n);
    }
  }

  /** One event appends at most a `StartWithWindows` and then an
      `UpdateAvailable` notification, each only when its flag turns on. */
  lemma StepNotifications(s: AppState, debug: bool, e: Event)
    ensures var t := Step(s, debug, e);
            t.notifications == s.notifications
              + (if !s.managerReady && t.managerReady then [StartWithWindowsChanged] else [])
              + (if !s.updateAvailable && t.updateAvailable then [UpdateAvailableChanged] else [])
  {
  }

  /** Each property-change notification is raised at most once over any run,
      exactly when its flag goes from false to true. */
  lemma {:induction false} RunNotifiesOnce(s: AppState, debug: bool, events: seq<Event>)
    ensures var r := Run(s, debug, events);
            && Count(r.notifications, UpdateAvailableChanged)
               == Count(s.notifications, UpdateAvailableChanged) + (if !s.updateAvailable && r.updateAvailable then 1 else 0)
            && Count(r.notifications, StartWithWindowsChanged)
               == Count(s.notifications, StartWithWindowsChanged) + (if !s.managerReady && r.managerReady then 1 else 0)
    decreases |events|
  {
    if events != [] {
      var t := Step(s, debug, events[0]);
      RunNotifiesOnce(t, debug, events[1..]);
      RunMonotone(t, debug, events[1..]);
      var swwNew: seq<Notification> := if !s.managerReady && t.managerReady then [StartWithWindowsChanged] else [];
      var uacNew: seq<Notification> := if !s.updateAvailable && t.updateAvailable then [UpdateAvailableChanged] else [];
      StepNotifications(s, debug, events[0]);
      assert t.notifications == s.notifications + swwNew + uacNew;
      CountAppend(s.notifications, swwNew, UpdateAvailableChanged);
      CountAppend(s.notifications + swwNew, uacNew, UpdateAvailableChanged);
      CountAppend(s.notifications, swwNew, StartWithWindowsChanged);
      CountAppend(s.notifications + swwNew, uacNew, StartWithWindowsChanged);
    }
  }

  /** An autorun launch with "minimize to tray" shows the tray icon and no
      window, and keeps it so until the icon is clicked. */
  lemma AutorunStartsInTray(s: AppState, version: Version, args: seq<string>, restore: RestoreOutcome,
                            debug: bool, events: seq<Event>)
    requires !s.windowShown
    requires StartMinimized(args, Startup(s, version, args, restore).settings.minimizeToTray)
    requires TrayClicked !in events
    ensures var r := Run(Startup(s, version, args, restore), debug, events);
            r.trayVisible && !r.windowShown
  {
    var started := Startup(s, version, args, restore);
    TrayNeedsClick(started, debug, events);
    WindowNeedsClick(started, debug, events);
  }

  lemma {:induction false} WindowNeedsClick(s: AppState, debug: bool, events: seq<Event>)
    requires TrayClicked !in events
    ensures Run(s, debug, events).windowShown == s.windowShown
    decreases |events|
  {
    if events != [] {
      assert events[0] in events;
      assert forall e :: e in events[1..] ==> e in events;
      WindowNeedsClick(Step(s, debug, events[0]), debug, events[1..]);
    }
  }

  /** Any other launch shows a main window whatever follows. */
  lemma OtherLaunchShowsWindow(s: AppState, version: Version, args: seq<string>, restore: RestoreOutcome,
                               debug: bool, events: seq<Event>)
    requires !StartMinimized(args, Startup(s, version, args, restore).settings.minimizeToTray)
    ensures var r := Run(Startup(s, version, args, restore), debug, events);
            r.windowShown && !r.trayVisible
  {
    RunMonotone(Startup(s, version, args, restore), debug, events);
  }

  /** The settings migration happens at most once per process: after startup
      `UpgradeRequired` is false and stays false. */
  lemma UpgradeHandledOnce(s: AppState, version: Version, args: seq<string>, restore: RestoreOutcome,
                           debug: bool, events: seq<Event>)
    ensures !Run(Startup(s, version, args, restore), debug, events).settings.upgradeRequired
  {
    RunMonotone(Startup(s, version, args, restore), debug, events);
  }
}

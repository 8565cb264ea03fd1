/**
 * The dashboard shell: the root component's colour mode together with the
 * panel shell's state, and the browser storage it reads at mount and writes
 * after every change.
 */
module Home {
  import opened Wrappers
  import opened Prefs
  import opened Notifications

  /** The two local-storage keys the shell uses, `theme` and `config`. */
  datatype Store = Store(theme: Option<string>, config: ConfigText)

  class Shell {
    var mode: string
    var drawerOpened: bool
    var stats: bool
    var designer: bool
    var statsRefreshRate: int
    var animateChart: bool
    var maxSamples: int
    var notifications: seq<Group>
    var storage: Store

    /** The five persisted settings as one value. */
    function Config(): UIConfig
      reads this
    {
      UIConfig(stats, designer, statsRefreshRate, animateChart, maxSamples)
    }

    /** The notification list never holds two groups with the same triple. */
    ghost predicate Valid()
      reads this
    {
      Distinct(notifications)
    }

    /** Storage reflects the current mode and settings, as it does once every pending save has run. */
    ghost predicate Persisted()
      reads this
    {
      storage.theme == Some(mode) && storage.config == Save(Config())
    }

    /** The first render: every state at its default, storage as the browser holds it. */
    constructor (store: Store)
      ensures Valid()
      ensures mode == "dark" && !drawerOpened && Config() == Defaults
      ensures notifications == [] && storage == store
    {
      mode := "dark";
      drawerOpened := false;
      stats, designer := true, true;
      statsRefreshRate, maxSamples := 3, 50;
      animateChart := false;
      notifications := [];
      storage := store;
    }

    /** The mount-time theme read: a non-empty stored string replaces the mode. */
    method LoadTheme()
      modifies this`mode
      ensures mode == LoadedMode(old(mode), storage.theme)
    {
      var stored := storage.theme;
      if stored.Some? && stored.value != "" {
        mode := stored.value;
      }
    }

    /** The write that follows every change of mode. */
    method SaveTheme()
      modifies this`storage
      ensures storage == old(storage).(theme := Some(mode))
    {
      storage := storage.(theme := Some(mode));
    }

    /**
     * The mount-time config read. Each field takes the stored value when it is
     * present and neither null nor undefined; text that is not JSON throws,
     * reported here as `ok == false` with nothing changed.
     */
    method LoadConfig() returns (ok: bool)
      modifies this`stats, this`designer, this`statsRefreshRate, this`animateChart, this`maxSamples
      ensures ok <==> !storage.config.Malformed?
      ensures ok ==> Load(old(Config()), storage.config) == Ok(Config())
      ensures !ok ==> Config() == old(Config())
    {
      match storage.config
      case Malformed =>
        return false;
      case Missing =>
        return true;
      case Json(parsed) =>
        if parsed.Some? {
          var s := parsed.value;
          stats := Overwrite(s.stats, stats);
          designer := Overwrite(s.designer, designer);
          statsRefreshRate := Overwrite(s.statsRefreshRate, statsRefreshRate);
          maxSamples := Overwrite(s.maxSamples, maxSamples);
          animateChart := Overwrite(s.animateChart, animateChart);
        }
        return true;
    }

    /** The write that follows every change of one of the five settings. */
    method SaveConfig()
      modifies this`storage
      ensures storage == old(storage).(config := Save(Config()))
    {
      storage := storage.(config := Save(Config()));
    }

    /**
     * Mounting: the config is restored and saved back, then the theme is
     * restored and saved back. Afterwards storage holds the restored values.
     * When the config text is not JSON, the config effect throws and the
     * config save does not run, but the root component's theme write still
     * runs in the same commit, with the mode from before the theme read.
     */
    method Mount() returns (ok: bool)
      modifies this
      ensures ok <==> !old(storage).config.Malformed?
      ensures ok ==> Load(old(Config()), old(storage).config) == Ok(Config())
      ensures ok ==> mode == LoadedMode(old(mode), old(storage).theme) && Persisted()
      ensures !ok ==> Config() == old(Config()) && mode == old(mode)
      ensures !ok ==> storage == old(storage).(theme := Some(old(mode)))
      ensures drawerOpened == old(drawerOpened) && notifications == old(notifications)
    {
      ok := LoadConfig();
      if !ok {
        SaveTheme();
        return;
      }
      SaveConfig();
      LoadTheme();
      SaveTheme();
    }

    /** The mode button: flips between "dark" and "light" and writes the new mode. */
    method ToggleMode()
      modifies this`mode, this`storage
      ensures mode == Toggled(old(mode))
      ensures storage == old(storage).(theme := Some(mode))
      ensures old(Persisted()) ==> Persisted()
    {
      mode := Toggled(mode);
      SaveTheme();
    }

    /** The menu icon, the chevron and the settings entry: open or close the drawer; nothing is saved. */
    method ToggleDrawer()
      modifies this`drawerOpened
      ensures drawerOpened == !old(drawerOpened)
    {
      drawerOpened := !drawerOpened;
    }

    /** The "Home" entry: shows or hides the designer panel, then saves the settings. */
    method ToggleDesigner()
      modifies this`designer, this`storage
      ensures Config() == With(old(Config()), Designer, BoolSetting(!old(designer)))
      ensures storage == old(storage).(config := Save(Config()))
      ensures old(Persisted()) ==> Persisted()
    {
      designer := !designer;
      SaveConfig();
    }

    /** The "Statistics" entry: shows or hides the statistics panel, then saves the settings. */
    method ToggleStats()
      modifies this`stats, this`storage
      ensures Config() == With(old(Config()), Stats, BoolSetting(!old(stats)))
      ensures storage == old(storage).(config := Save(Config()))
      ensures old(Persisted()) ==> Persisted()
    {
      stats := !stats;
      SaveConfig();
    }

    /** A setter handed out through the descriptor map (or a toggle), followed by the save. */
    method Set(f: Field, v: Setting)
      requires Fits(f, v)
      modifies this`stats, this`designer, this`statsRefreshRate, this`animateChart, this`maxSamples, this`storage
      ensures Config() == With(old(Config()), f, v)
      ensures storage == old(storage).(config := Save(Config()))
      ensures old(Persisted()) ==> Persisted()
    {
      match f {
        case Stats => stats := v.b;
        case Designer => designer := v.b;
        case StatsRefreshRate => statsRefreshRate := v.i;
        case AnimateChart => animateChart := v.b;
        case MaxSamples => maxSamples := v.i;
      }
      SaveConfig();
    }

    /**
     * addNotification: the group for (level, kind, target) gets the new event
     * and becomes the last group; the other groups keep their order.
     */
    method AddNotification(level: string, kind: string, target: string, date: int, notification: string)
      requires Valid()
      modifies this`notifications
      ensures Valid()
      ensures notifications == Add(old(notifications), Key(level, kind, target), Entry(date, notification))
    {
      var k := Key(level, kind, target);
      var e := Entry(date, notification);
      AddPreservesDistinct(notifications, k, e);
      notifications := Add(notifications, k, e);
    }

    /** The notification panel's clear action: the list becomes empty. */
    method ClearNotifications()
      modifies this`notifications
      ensures Valid() && notifications == []
    {
      notifications := [];
    }
  }
}

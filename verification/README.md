# NightDriverStrip dashboard shell — a Dafny model

NightDriverStrip's web dashboard has a root shell component (`site/src/components/home/home.jsx`).
It tracks the colour mode ("dark" or "light") and whether the navigation drawer is open.
It also tracks two panel-visibility flags and three chart settings (refresh rate, chart points, animate chart).
It persists the mode and the five settings to the browser's local storage, and restores them at mount.
Child panels report events through `addNotification`. The shell groups these events by their (level, type, target) triple.

The model has four modules:

- `Wrappers`: `Option` and `Result`.
- `Notifications`: the grouping upsert as pure functions on `seq<Group>`, with its properties as lemmas.
  The main function is `Add`. The properties are the uniqueness of triples, move-to-end, "other groups unchanged", the length change and the count of triples after any sequence of calls.
- `Prefs`: the pure parts of preference handling.
  - The config merge applied at mount (`Merge`, `Load`) and the object written on save (`Save`), with their round trip.
  - The theme read (`LoadedMode`) and the mode toggle (`Toggled`).
  - The descriptor map given to the configuration panel (`SiteConfig`) and what its setters do (`With`).
- `Home`: `class Shell`. It holds the component state fields and the two storage keys as a `Store` record.
  It has one method per effect or event handler. Each method states the new state in terms of the functions above.

Storage is a record of the two keys. The `config` key is held as its parse result (`ConfigText`), not as JSON text:
- `Missing`: no key. `JSON.parse(null)` gives `null`, so nothing is restored.
- `Malformed`: text that is not JSON. `JSON.parse` throws here, since line 43 has no try/catch.
- `Json(None)`: a falsy JSON value. Nothing is restored.
- `Json(Some(obj))`: an object. Each property is `Undefined`, `Null` or `Value(v)`.

The loose `!= undefined` test at lines 45-49 is false for both `null` and `undefined`. So a property overwrites its setting exactly when it is `Value(v)`.

Line 43 has no try/catch, so a malformed `config` text throws out of the mount effect. `Load` returns `Failure` for it. `Shell.Mount` then reports `ok == false` and leaves the settings and the config key as they were. The root component's theme write at line 26 still runs in that commit, with the mode from before the theme read, so the `theme` key is set to that mode.

React effects and re-renders are not modelled one by one. `Shell.Mount` runs the config load, the config save, the theme load and the theme save, in that order. React's real order is: load, save of the defaults, re-render, save of the restored values. Both orders leave the same final state and the same final storage.

After mount, every handler that changes the mode or a setting also performs the save effect that the change triggers.

## Model

| member | source | states |
|---|---|---|
| `Notifications.Find` | site/src/components/home/home.jsx:88 | returns the first index whose group has the triple, or `None` exactly when no group has it |
| `Notifications.History` | site/src/components/home/home.jsx:88-89 | the events already held for the triple: empty if no group has it, and otherwise (triples distinct) the events of the one group that has it |
| `Notifications.Others` | site/src/components/home/home.jsx:90 | the groups whose triple differs, in order: a group is in the result exactly when it is in the list with another triple |
| `Notifications.Add` | site/src/components/home/home.jsx:86-92 | the list grows by one exactly when no group had the triple and is otherwise the same length; the last group has the triple and holds its previous events (none if new) followed by exactly the new one |
| `Notifications.AddKeepsOthers` | site/src/components/home/home.jsx:90 | every group with another triple keeps its contents and relative order |
| `Notifications.AddIsFilterThenAppend` | site/src/components/home/home.jsx:88-90 | on a list with distinct triples, the result is exactly the other groups in order followed by the updated group |
| `Notifications.AddPreservesDistinct` | site/src/components/home/home.jsx:88-90 | if triples were pairwise distinct before, they are afterwards, so no other group has the added triple |
| `Notifications.AddKeys` | site/src/components/home/home.jsx:88-90 | the set of triples after the call is the set before plus the added triple |
| `Notifications.DistinctCount` | site/src/components/home/home.jsx:88-90 | with distinct triples, the number of triples equals the number of groups |
| `Notifications.ReplayDistinct` | site/src/components/home/home.jsx:86-92 | after any sequence of calls from the empty list, the triples are distinct, are exactly those the calls named, and are as many as the groups |
| `Notifications.ErrorInfoErrorExample` | site/src/components/home/home.jsx:86-92 | error, info, error on one sensor and strip gives two groups: info first, then error holding both error events in call order |
| `Prefs.Merge` | site/src/components/home/home.jsx:44-50 | a falsy stored value changes nothing; otherwise each of the five settings takes the stored property when it is neither null nor undefined and keeps its prior value otherwise |
| `Prefs.Load` | site/src/components/home/home.jsx:42-51 | fails exactly on text that is not JSON; a missing key or a falsy JSON value leaves every setting as it was; parsed JSON gives `Merge` of the settings and the parsed value |
| `Prefs.Save` | site/src/components/home/home.jsx:54-62 | writes a JSON object in which all five settings are present |
| `Prefs.LoadAfterSave` | site/src/components/home/home.jsx:45-61 | loading what save wrote restores all five settings, whatever they were before |
| `Prefs.PartialConfigExample` | site/src/components/home/home.jsx:44-50 | a stored `{stats: false}` yields `stats == false` and every other setting at its default |
| `Prefs.LoadIdempotent` | site/src/components/home/home.jsx:45-49 | restoring the same stored text twice gives the same settings as restoring it once |
| `Prefs.LoadedMode` | site/src/components/home/home.jsx:18-21 | a stored non-empty theme string replaces the mode; no key or an empty string keeps it |
| `Prefs.Toggled` | site/src/components/home/home.jsx:118 | the new mode always differs from the old, is "dark" or "light", and is "light" exactly when the old one was "dark" |
| `Prefs.ToggleTwice` | site/src/components/home/home.jsx:118 | two toggles from "dark" or "light" return to the start |
| `Prefs.ToggleTwiceFromOther` | site/src/components/home/home.jsx:118 | two toggles from any other stored mode end on "light" |
| `Prefs.With` | site/src/components/home/home.jsx:34-38 | a state setter gives its own setting the new value and leaves the other four unchanged |
| `Prefs.SiteConfig` | site/src/components/home/home.jsx:65-84 | exactly the keys statsRefreshRate, statsAnimateChange and maxSamples. Each entry shows the current value of the setting its setter writes. "int" entries hold integers and "boolean" entries booleans. No two entries share a setter, and none writes stats or designer. statsRefreshRate is "Refresh rate" bound to the refresh-rate setter, statsAnimateChange is "Animate chart" bound to the animate-chart setter, and maxSamples is "Chart points" bound to the chart-points setter |
| `Prefs.SetThroughDescriptor` | site/src/components/home/home.jsx:65-84 | a value passed to an entry's setter is that entry's value on the next render, and the other entries are unchanged |
| `Home.Shell.constructor` | site/src/components/home/home.jsx:14-39 | first render: mode "dark", drawer closed, stats and designer shown, refresh rate 3, 50 chart points, no animation, no notifications |
| `Home.Shell.LoadTheme` | site/src/components/home/home.jsx:17-22 | the mode becomes `LoadedMode` of the stored theme; nothing else changes |
| `Home.Shell.SaveTheme` | site/src/components/home/home.jsx:25-27 | the `theme` key is set to the current mode; the `config` key is untouched |
| `Home.Shell.LoadConfig` | site/src/components/home/home.jsx:42-51 | succeeds exactly when the stored text is JSON, and then the settings are `Load` of the old settings; on failure nothing changes |
| `Home.Shell.SaveConfig` | site/src/components/home/home.jsx:54-62 | the `config` key is set to `Save` of the current settings; the `theme` key is untouched |
| `Home.Shell.Mount` | site/src/components/home/home.jsx:17-62 | on valid storage the settings and the mode are restored and storage then reflects them; on malformed config the settings, the mode and the config key stay, and the theme key is set to the mode from before the load; drawer and notifications untouched |
| `Home.Shell.ToggleMode` | site/src/components/home/home.jsx:118 | the mode becomes `Toggled` of the old one and is written to the `theme` key |
| `Home.Shell.ToggleDrawer` | site/src/components/home/home.jsx:98 | flips the drawer flag and changes nothing else (also the chevron at line 121 and the settings entry at lines 129-131) |
| `Home.Shell.ToggleDesigner` | site/src/components/home/home.jsx:127-131 | flips `designer` only and saves the settings |
| `Home.Shell.ToggleStats` | site/src/components/home/home.jsx:128-131 | flips `stats` only and saves the settings |
| `Home.Shell.Set` | site/src/components/home/home.jsx:65-84 | a descriptor setter: the settings become `With` of the old ones and are saved |
| `Home.Shell.AddNotification` | site/src/components/home/home.jsx:86-92 | the list becomes `Add` of the old list for the triple and the event, and keeps distinct triples |
| `Home.Shell.ClearNotifications` | site/src/components/home/home.jsx:108 | the list becomes empty |

## Left out

- Rendering, styling and the theme object are view code and foreign library calls. This covers MUI components, `withStyles` classes, `ThemeProvider`, `getTheme` and the icon and label texts at lines 100 and 118-119.
- The child panels `NotificationPanel`, `ConfigPanel`, `StatsPanel` and `DesignerPanel` are not part of this model. Their calls into the shell are the methods of `Shell`.
- JSON text and `localStorage` I/O are not modelled. Stored config is its parse result. Property values of the wrong JSON type (for example a string for `stats`) are not modelled: each property is typed like its setting.
- Dates: `new Date()` at line 89 is replaced by a timestamp the caller passes.
- Notification payloads are modelled as strings. The `level`, `type` and `target` values are modelled as strings too. For strings, the loose `==` on `type` at line 88 is the same as `===`. Mixed JavaScript types are not modelled.
- Aliasing: line 89 pushes onto the found group's array in place, so the previous state's group object changes too. The model builds a new group value, so this sharing is not captured.
- Hook scheduling is not modelled step by step. This covers effect order, batching of state updates, re-renders and React skipping effects whose dependencies did not change. `Shell.Mount` and the handlers give the state reached once all pending effects have run.
- Home.Shell.Set: a setter called with a value of another type than its setting (JavaScript would store it) is excluded by `requires Fits(f, v)`.
- Home.Shell.Mount: when the config text is malformed, the model reports `ok == false`. It keeps the state fields as they were and sets only the `theme` key. The mode update that the theme read schedules is not modelled. The error's effect on the rest of the page is not modelled either.
- Prefs.LoadAfterSave: `statsRefreshRate` and `maxSamples` are JavaScript numbers (doubles), modelled as unbounded integers. Fractions, NaN and ±Infinity are not modelled. For NaN and ±Infinity the source's round trip fails: `JSON.stringify` at line 55 writes them as `null`, and lines 47-48 then keep the prior value.

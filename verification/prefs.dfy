/**
 * User preferences of the dashboard shell: the five display settings that are
 * saved to and restored from local storage, the colour mode, and the setting
 * descriptors handed to the configuration panel.
 */
module Prefs {
  import opened Wrappers

  /** The display settings, in the order they are written to storage. */
  datatype UIConfig = UIConfig(
    stats: bool,
    designer: bool,
    statsRefreshRate: int,
    animateChart: bool,
    maxSamples: int)

  /** The values the shell starts with before anything is restored. */
  const Defaults := UIConfig(stats := true, designer := true, statsRefreshRate := 3, animateChart := false, maxSamples := 50)

  /**
   * What reading one property of the parsed stored object yields: the property
   * is missing, holds JSON `null`, or holds a value.
   */
  datatype Stored<T> = Undefined | Null | Value(v: T)

  /** The stored object, property by property. */
  datatype StoredConfig = StoredConfig(
    stats: Stored<bool>,
    designer: Stored<bool>,
    statsRefreshRate: Stored<int>,
    animateChart: Stored<bool>,
    maxSamples: Stored<int>)

  /**
   * The text under the `config` key, as `JSON.parse` sees it: no such key,
   * text that is not JSON, or JSON whose value is falsy (`None`) or truthy.
   * A truthy value that is not an object reads as an object whose properties
   * are all `Undefined`.
   */
  datatype ConfigText = Missing | Malformed | Json(parsed: Option<StoredConfig>)

  /** The updater `s => stored != undefined ? stored : s`; the loose `!=` also rejects `null`. */
  function Overwrite<T>(stored: Stored<T>, current: T): T {
    if stored.Value? then stored.v else current
  }

  /** Applies a parsed stored object to the current settings, each field on its own. */
  function Merge(current: UIConfig, parsed: Option<StoredConfig>): (r: UIConfig)
    ensures parsed.None? ==> r == current
    ensures parsed.Some? ==>
      var s := parsed.value;
      && (s.stats.Value? ==> r.stats == s.stats.v) && (!s.stats.Value? ==> r.stats == current.stats)
      && (s.designer.Value? ==> r.designer == s.designer.v) && (!s.designer.Value? ==> r.designer == current.designer)
      && (s.statsRefreshRate.Value? ==> r.statsRefreshRate == s.statsRefreshRate.v)
      && (!s.statsRefreshRate.Value? ==> r.statsRefreshRate == current.statsRefreshRate)
      && (s.animateChart.Value? ==> r.animateChart == s.animateChart.v)
      && (!s.animateChart.Value? ==> r.animateChart == current.animateChart)
      && (s.maxSamples.Value? ==> r.maxSamples == s.maxSamples.v)
      && (!s.maxSamples.Value? ==> r.maxSamples == current.maxSamples)
  {
    match parsed
    case None => current
    case Some(s) =>
      UIConfig(
        stats := Overwrite(s.stats, current.stats),
        designer := Overwrite(s.designer, current.designer),
        statsRefreshRate := Overwrite(s.statsRefreshRate, current.statsRefreshRate),
        animateChart := Overwrite(s.animateChart, current.animateChart),
        maxSamples := Overwrite(s.maxSamples, current.maxSamples))
  }

  /**
   * The mount-time load: parse the stored text and merge it. Text that is not
   * JSON makes `JSON.parse` throw; a missing key parses as `null`.
   */
  function Load(current: UIConfig, text: ConfigText): (r: Result<UIConfig>)
    ensures r.Failure? <==> text.Malformed?
    ensures text.Missing? || text == Json(None) ==> r == Ok(current)
    ensures text.Json? ==> r == Ok(Merge(current, text.parsed))
  {
    match text
    case Missing => Ok(current)
    case Malformed => Failure("SyntaxError")
    case Json(parsed) => Ok(Merge(current, parsed))
  }

  /** The object written on save: exactly the five settings, each present. */
  function Save(c: UIConfig): (t: ConfigText)
    ensures t.Json? && t.parsed.Some?
    ensures var s := t.parsed.value;
      s.stats.Value? && s.designer.Value? && s.statsRefreshRate.Value? && s.animateChart.Value? && s.maxSamples.Value?
  {
    Json(Some(StoredConfig(Value(c.stats), Value(c.designer), Value(c.statsRefreshRate), Value(c.animateChart), Value(c.maxSamples))))
  }

  /** Loading what save wrote restores all five settings, whatever they were before. */
  lemma LoadAfterSave(current: UIConfig, c: UIConfig)
    ensures Load(current, Save(c)) == Ok(c)
  {
  }

  /** A stored object with only `stats: false` changes `stats` and nothing else. */
  lemma PartialConfigExample()
    ensures Load(Defaults, Json(Some(StoredConfig(Value(false), Undefined, Undefined, Undefined, Undefined))))
         == Ok(Defaults.(stats := false))
  {
  }

  /** Restoring the same stored text twice is the same as restoring it once. */
  lemma LoadIdempotent(current: UIConfig, text: ConfigText)
    requires !text.Malformed?
    ensures Load(Load(current, text).value, text) == Load(current, text)
  {
  }

  /** The mode after the mount-time read: a non-empty stored string replaces it. */
  function LoadedMode(current: string, stored: Option<string>): (r: string)
    ensures stored.Some? && stored.value != "" ==> r == stored.value
    ensures stored.None? || stored.value == "" ==> r == current
  {
    if stored.Some? && stored.value != "" then stored.value else current
  }

  /** The mode-toggle button: "dark" becomes "light", anything else becomes "dark". */
  function Toggled(mode: string): (r: string)
    ensures r != mode
    ensures r == "dark" || r == "light"
    ensures r == "light" <==> mode == "dark"
  {
    if mode == "dark" then "light" else "dark"
  }

  /** Two toggles from "dark" or "light" return to the start. */
  lemma ToggleTwice(mode: string)
    requires mode == "dark" || mode == "light"
    ensures Toggled(Toggled(mode)) == mode
  {
  }

  /** Any other stored mode is normalised: two toggles from it end on "light". */
  lemma ToggleTwiceFromOther(mode: string)
    requires mode != "dark" && mode != "light"
    ensures Toggled(Toggled(mode)) == "light"
  {
  }

  /** One of the five settings, naming the state setter that writes it. */
  datatype Field = Stats | Designer | StatsRefreshRate | AnimateChart | MaxSamples

  /** The value of a setting. */
  datatype Setting = IntSetting(i: int) | BoolSetting(b: bool)

  /** The value has the type of the field. */
  predicate Fits(f: Field, v: Setting) {
    if f == StatsRefreshRate || f == MaxSamples then v.IntSetting? else v.BoolSetting?
  }

  /** The current value of one field. */
  function Current(c: UIConfig, f: Field): (v: Setting)
    ensures Fits(f, v)
  {
    match f
    case Stats => BoolSetting(c.stats)
    case Designer => BoolSetting(c.designer)
    case StatsRefreshRate => IntSetting(c.statsRefreshRate)
    case AnimateChart => BoolSetting(c.animateChart)
    case MaxSamples => IntSetting(c.maxSamples)
  }

  /** What calling the setter of `f` with `v` does to the settings. */
  function With(c: UIConfig, f: Field, v: Setting): (r: UIConfig)
    requires Fits(f, v)
    ensures Current(r, f) == v
    ensures forall g :: g != f ==> Current(r, g) == Current(c, g)
  {
    match f
    case Stats => c.(stats := v.b)
    case Designer => c.(designer := v.b)
    case StatsRefreshRate => c.(statsRefreshRate := v.i)
    case AnimateChart => c.(animateChart := v.b)
    case MaxSamples => c.(maxSamples := v.i)
  }

  /** One entry of the descriptor map: label, current value, setter and type tag. */
  datatype Descriptor = Descriptor(name: string, value: Setting, setter: Field, kind: string)

  /**
   * The descriptor map built on every render: three entries, each showing the
   * current value of the setting its setter writes, typed "int" or "boolean".
   */
  function SiteConfig(c: UIConfig): (m: map<string, Descriptor>)
    ensures m.Keys == {"statsRefreshRate", "statsAnimateChange", "maxSamples"}
    ensures forall key :: key in m ==> m[key].value == Current(c, m[key].setter)
    ensures forall key :: key in m ==> (m[key].kind == "int" <==> m[key].value.IntSetting?)
    ensures forall key :: key in m ==> (m[key].kind == "boolean" <==> m[key].value.BoolSetting?)
    ensures forall key :: key in m ==> m[key].setter != Stats && m[key].setter != Designer
    ensures forall k1, k2 :: k1 in m && k2 in m && k1 != k2 ==> m[k1].setter != m[k2].setter
    ensures m["statsRefreshRate"].setter == StatsRefreshRate && m["statsRefreshRate"].name == "Refresh rate"
    ensures m["statsAnimateChange"].setter == AnimateChart && m["statsAnimateChange"].name == "Animate chart"
    ensures m["maxSamples"].setter == MaxSamples && m["maxSamples"].name == "Chart points"
  {
    map[
      "statsRefreshRate" := Descriptor("Refresh rate", IntSetting(c.statsRefreshRate), StatsRefreshRate, "int"),
      "statsAnimateChange" := Descriptor("Animate chart", BoolSetting(c.animateChart), AnimateChart, "boolean"),
      "maxSamples" := Descriptor("Chart points", IntSetting(c.maxSamples), MaxSamples, "int")]
  }

  /**
   * A value given to an entry's setter shows up in that entry on the next
   * render, and the other entries keep their values.
   */
  lemma SetThroughDescriptor(c: UIConfig, key: string, v: Setting)
    requires key in SiteConfig(c) && Fits(SiteConfig(c)[key].setter, v)
    ensures var c' := With(c, SiteConfig(c)[key].setter, v);
      && SiteConfig(c')[key].value == v
      && forall other :: other in SiteConfig(c) && other != key ==> SiteConfig(c')[other] == SiteConfig(c)[other]
  {
  }
}
